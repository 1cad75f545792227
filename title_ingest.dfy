/**
 * What `TitleService.createTitle` does to the database, as functions from
 * one database state to the next: one function per helper of the service
 * (`upsertAndLinkEntities`, `processGenres`/`processLanguages`/
 * `processCountries`, `processPeople`, `processRatings`,
 * `createTitleWithRelations`, `createTitle`), composed in the order the
 * source lists them. The methods of `TitleService` are proved to compute
 * exactly these; the lemmas here say what they guarantee.
 */
module TitleIngest {
  import opened Wrappers
  import opened TitleFields
  import opened TitleStore

  /** The database as the service sees it: the tables and the id sequence. */
  datatype State = State(tables: Tables, nextId: nat)

  /** The outcome of one step and the state it leaves. */
  datatype Step<+T> = Step(result: T, state: State)

  /** `{ success: true, message, titleId }`. */
  datatype CreateTitleResult = CreateTitleResult(success: bool, message: string, titleId: nat)

  predicate Complete(t: Tables) {
    && (forall d: Dictionary :: d in t.dictionaries)
    && (forall j: JoinTable :: j in t.joins)
  }

  /** A field the processors return early on: absent, empty, or "N/A". */
  predicate Skipped(field: Option<string>) {
    !Truthy(field) || field == Some(NotAvailable)
  }

  /** What a link or people processor is asked to do: `None` when it returns early, else the names it links. */
  type Work = Option<seq<string>>

  /** The work a comma-separated field gives its processor. */
  function FieldWork(field: Option<string>): Work {
    if Skipped(field) then None else Some(ParseCommaSeparatedValues(field.value))
  }

  /** The names a processor links: none when it returns early. */
  function Names(w: Work): seq<string> {
    if w.None? then [] else w.value
  }

  /** The inputs of the seven processors, read off the record. */
  datatype Plan = Plan(
    genres: Work, languages: Work, countries: Work,
    actors: Work, writers: Work, directors: Work,
    ratings: seq<RatingEntry>)

  function PlanOf(m: MovieResponse): Plan {
    Plan(FieldWork(m.genre), FieldWork(m.language), FieldWork(m.country),
         FieldWork(m.actors), FieldWork(m.writer), FieldWork(m.director),
         m.ratings)
  }

  /** The work of the processor feeding each plain join table. */
  function LinkWork(plan: Plan, j: JoinTable): Work {
    match j
    case TitleGenre => plan.genres
    case TitleLanguage => plan.languages
    case TitleCountry => plan.countries
  }

  /** The work of the processor feeding each role. */
  function CreditWork(plan: Plan, role: Role): Work {
    match role
    case Actor => plan.actors
    case Writer => plan.writers
    case Director => plan.directors
  }

  /** `ratings.map((r) => r.Source)`. */
  function SourceNames(ratings: seq<RatingEntry>): (r: seq<string>)
    ensures |r| == |ratings|
    ensures forall k :: 0 <= k < |r| ==> r[k] == ratings[k].source
  {
    seq(|ratings|, k requires 0 <= k < |ratings| => ratings[k].source)
  }

  // ----------------------------------------------------------------- steps

  /**
   * Query the rows named in `names`, insert the names that are not stored
   * yet (in one batch), query again. Every requested name comes back.
   */
  function ResolveStep(s: State, d: Dictionary, names: seq<string>): (r: Step<Result<seq<Row>, Failure>>)
    requires Complete(s.tables)
    ensures Complete(r.state.tables) && s.nextId <= r.state.nextId
    ensures r.result.Err? ==> r.state == s && r.result.error == UniqueViolation(TableName(d))
    ensures r.result.Ok? ==> forall n :: n in names ==> n in NamesOf(r.result.value)
  {
    var rows := s.tables.dictionaries[d];
    var missing := Unmatched(names, NamesOf(rows));
    if !Distinct(missing) then Step(Err(UniqueViolation(TableName(d))), s)
    else
      var rows' := Resolved(rows, names, s.nextId);
      ResolvedCovers(rows, names, s.nextId);
      SelectNames(rows', names);
      Step(Ok(Select(rows', names)),
           State(s.tables.(dictionaries := s.tables.dictionaries[d := rows']), s.nextId + |missing|))
  }

  /** Resolution writes only the dictionary it resolves into, and only appends to it. */
  lemma ResolveStepFrame(s: State, d: Dictionary, names: seq<string>)
    requires Complete(s.tables)
    ensures var t := ResolveStep(s, d, names).state.tables;
            && t == s.tables.(dictionaries := s.tables.dictionaries[d := t.dictionaries[d]])
            && s.tables.dictionaries[d] <= t.dictionaries[d]
  {
    ResolvedCovers(s.tables.dictionaries[d], names, s.nextId);
  }

  /** `upsertAndLinkEntities`: resolve the names, then link the title to every row returned. */
  function LinkStep(s: State, j: JoinTable, names: seq<string>, titleId: nat): (r: Step<Outcome<Failure>>)
    requires Complete(s.tables)
    ensures Complete(r.state.tables) && s.nextId <= r.state.nextId
  {
    var res := ResolveStep(s, TargetOf(j), names);
    if res.result.Err? then Step(Fail(res.result.error), res.state)
    else
      var t := res.state.tables;
      Step(Pass, State(t.(joins := t.joins[j := t.joins[j] + LinksFor(titleId, res.result.value)]), res.state.nextId))
  }

  /** `processGenres`, `processLanguages`, `processCountries`. */
  function FieldStep(s: State, j: JoinTable, titleId: nat, work: Work): (r: Step<Outcome<Failure>>)
    requires Complete(s.tables)
    ensures Complete(r.state.tables) && s.nextId <= r.state.nextId
  {
    if work.None? then Step(Pass, s)
    else LinkStep(s, j, work.value, titleId)
  }

  /** `processPeople(tx, titleId, field, role)`. */
  function PeopleStep(s: State, titleId: nat, work: Work, role: Role): (r: Step<Outcome<Failure>>)
    requires Complete(s.tables)
    ensures Complete(r.state.tables) && s.nextId <= r.state.nextId
  {
    if work.None? then Step(Pass, s)
    else
      var res := ResolveStep(s, People, work.value);
      if res.result.Err? then Step(Fail(res.result.error), res.state)
      else
        var t := res.state.tables;
        Step(Pass, State(t.(titlePeople := t.titlePeople + PersonLinksFor(titleId, res.result.value, role)),
                         res.state.nextId))
  }

  /** `processRatings`: resolve the sources, then one rating row per entry. */
  function RatingsStep(s: State, titleId: nat, ratings: seq<RatingEntry>): (r: Step<Outcome<Failure>>)
    requires Complete(s.tables)
    ensures Complete(r.state.tables) && s.nextId <= r.state.nextId
  {
    if |ratings| == 0 then Step(Pass, s)
    else
      var res := ResolveStep(s, RatingSource, SourceNames(ratings));
      if res.result.Err? then Step(Fail(res.result.error), res.state)
      else
        var t := res.state.tables;
        assert forall k :: 0 <= k < |ratings| ==> ratings[k].source in SourceNames(ratings);
        Step(Pass, State(t.(titleRatings := t.titleRatings + RatingRowsFor(titleId, ratings, res.result.value)),
                         res.state.nextId))
  }

  /** An absent, empty or "N/A" field, and an empty ratings list, change nothing. */
  lemma SkippedWritesNothing(s: State, id: nat, field: Option<string>, j: JoinTable, role: Role)
    requires Complete(s.tables) && Skipped(field)
    ensures FieldStep(s, j, id, FieldWork(field)) == Step(Pass, s)
    ensures PeopleStep(s, id, FieldWork(field), role) == Step(Pass, s)
    ensures RatingsStep(s, id, []) == Step(Pass, s)
  {
  }

  /** The seven calls awaited together by `Promise.all`. */
  datatype Processor = Links(j: JoinTable) | Credits(role: Role) | Ratings

  /** The calls in the order the source lists them. */
  const Processors: seq<Processor> :=
    [Links(TitleGenre), Links(TitleLanguage), Links(TitleCountry),
     Credits(Actor), Credits(Writer), Credits(Director), Ratings]

  /** One processor applied to title `titleId`. */
  function ProcessorStep(s: State, titleId: nat, plan: Plan, p: Processor): (r: Step<Outcome<Failure>>)
    requires Complete(s.tables)
    ensures Complete(r.state.tables) && s.nextId <= r.state.nextId
  {
    match p
    case Links(j) => FieldStep(s, j, titleId, LinkWork(plan, j))
    case Credits(role) => PeopleStep(s, titleId, CreditWork(plan, role), role)
    case Ratings => RatingsStep(s, titleId, plan.ratings)
  }

  /** The processors run one after another, stopping at the first that throws. */
  function RunProcessors(s: State, titleId: nat, plan: Plan, ps: seq<Processor>): (r: Step<Outcome<Failure>>)
    requires Complete(s.tables)
    ensures Complete(r.state.tables) && s.nextId <= r.state.nextId
    decreases |ps|
  {
    if |ps| == 0 then Step(Pass, s)
    else
      var first := ProcessorStep(s, titleId, plan, ps[0]);
      if first.result.Fail? then first else RunProcessors(first.state, titleId, plan, ps[1..])
  }

  /** The `Promise.all` block of `createTitleWithRelations`. */
  function RelationsStep(s: State, titleId: nat, plan: Plan): (r: Step<Outcome<Failure>>)
    requires Complete(s.tables)
    ensures Complete(r.state.tables) && s.nextId <= r.state.nextId
  {
    RunProcessors(s, titleId, plan, Processors)
  }

  /** The state right after the title row is inserted under the next id. */
  function Admitted(s: State, data: TitleData): (r: State)
    ensures r.tables.titles == s.tables.titles + [TitleRow(s.nextId, data)]
    ensures r.tables == s.tables.(titles := r.tables.titles) && r.nextId == s.nextId + 1
  {
    State(s.tables.(titles := s.tables.titles + [TitleRow(s.nextId, data)]), s.nextId + 1)
  }

  /**
   * `createTitleWithRelations`, given the row `buildTitleData` makes and
   * the processors' inputs: insert the title row, run the processors; when
   * anything throws, the transaction rolls every table back (the id
   * sequence keeps what it handed out).
   */
  function CreateWithRelationsStep(s: State, data: TitleData, plan: Plan): (r: Step<Result<nat, Failure>>)
    requires Complete(s.tables)
    ensures Complete(r.state.tables) && s.nextId <= r.state.nextId
    ensures r.result.Err? ==> r.state.tables == s.tables
    ensures r.result.Ok? ==> r.result.value == s.nextId
                             && r.state.tables.titles == s.tables.titles + [TitleRow(s.nextId, data)]
  {
    if ImdbTaken(s.tables.titles, data.imdbId) then Step(Err(UniqueViolation("title")), s)
    else
      var id := s.nextId;
      var s1 := Admitted(s, data);
      var rel := RelationsStep(s1, id, plan);
      RunProcessorsKeepTitles(s1, id, plan, Processors);
      if rel.result.Fail? then Step(Err(rel.result.error), State(s.tables, rel.state.nextId))
      else Step(Ok(id), rel.state)
  }

  /** `createTitle`: fetch outcome, validation, the transaction, and the mapping of errors to HTTP errors. */
  function CreateTitleStep(s: State, fetched: FetchOutcome): (r: Step<Result<CreateTitleResult, Failure>>)
    requires Complete(s.tables)
    ensures Complete(r.state.tables) && s.nextId <= r.state.nextId
    ensures r.result.Err? ==> r.state.tables == s.tables
    ensures r.result.Err? ==> r.result.error.BadRequest? || r.result.error == InternalServerError("Failed to create title")
    ensures r.result.Ok? ==> r.result.value == CreateTitleResult(true, "Title created successfully", s.nextId)
  {
    match ClassifyFetch(fetched)
    case Err(e) => Step(Err(MapError(e)), s)
    case Ok(m) =>
      match ValidateMovieData(m)
      case Fail(e) => Step(Err(MapError(e)), s)
      case Pass =>
        var created := CreateWithRelationsStep(s, BuildTitleData(m), PlanOf(m));
        if created.result.Err? then Step(Err(MapError(created.result.error)), created.state)
        else Step(Ok(CreateTitleResult(true, "Title created successfully", created.result.value)), created.state)
  }

  // ------------------------------------------------------------ resolution

  /** A batch fails exactly when a name that is not stored yet is listed twice. */
  lemma ResolveFailsIffNewNameRepeats(s: State, d: Dictionary, names: seq<string>)
    requires Complete(s.tables)
    ensures ResolveStep(s, d, names).result.Err? <==>
              exists i, j :: 0 <= i < j < |names| && names[i] == names[j]
                          && names[i] !in NamesOf(s.tables.dictionaries[d])
  {
    var stored := NamesOf(s.tables.dictionaries[d]);
    var missing := Unmatched(names, stored);
    if exists i, j :: 0 <= i < j < |names| && names[i] == names[j] && names[i] !in stored {
      var i, j :| 0 <= i < j < |names| && names[i] == names[j] && names[i] !in stored;
      RepeatedNewNameRepeatsInBatch(s.tables.dictionaries[d], names, i, j);
    }
    if !Distinct(missing) {
      var i, j :| 0 <= i < j < |missing| && missing[i] == missing[j];
      var n := missing[i];
      TwoPositions(missing, i, j);
      UnmatchedMembers(names, stored);
      UnmatchedMultiplicity(names, stored, n);
      var a, b := RepeatIndices(names, n);
    }
  }

  lemma TwoPositions<T>(s: seq<T>, i: nat, j: nat)
    requires i < j < |s| && s[i] == s[j]
    ensures multiset(s)[s[i]] >= 2
  {
    assert s == s[..j] + s[j..];
    assert s[..j][i] == s[i] && s[j..][0] == s[i];
  }

  lemma {:induction false} RepeatIndices<T>(s: seq<T>, x: T) returns (i: nat, j: nat)
    requires multiset(s)[x] >= 2
    ensures i < j < |s| && s[i] == x && s[j] == x
  {
    assert s == [s[0]] + s[1..];
    if s[0] == x {
      assert x in s[1..];
      var k :| 0 <= k < |s[1..]| && s[1..][k] == x;
      i, j := 0, k + 1;
    } else {
      var a, b := RepeatIndices(s[1..], x);
      i, j := a + 1, b + 1;
    }
  }

  /** Resolving the same names again inserts nothing and returns the same rows. */
  lemma ResolveIdempotent(s: State, d: Dictionary, names: seq<string>)
    requires Complete(s.tables)
    requires ResolveStep(s, d, names).result.Ok?
    ensures var r := ResolveStep(s, d, names);
            ResolveStep(r.state, d, names) == r
  {
    var r := ResolveStep(s, d, names);
    var rows := s.tables.dictionaries[d];
    var missing := Unmatched(names, NamesOf(rows));
    var rows' := Resolved(rows, names, s.nextId);
    assert r.state == State(s.tables.(dictionaries := s.tables.dictionaries[d := rows']), s.nextId + |missing|);
    ResolvedCovers(rows, names, s.nextId);
    UnmatchedAllStored(names, NamesOf(rows'));
    var t := r.state.tables;
    assert Resolved(rows', names, r.state.nextId) == rows';
    assert t.dictionaries[d := rows'] == t.dictionaries;
  }

  /**
   * On a well-formed table, resolution returns one row per distinct name,
   * named exactly by the requested names, and keeps the table well formed.
   */
  lemma ResolveOnePerName(s: State, d: Dictionary, names: seq<string>)
    requires Complete(s.tables) && WellFormed(s.tables.dictionaries[d], s.nextId)
    requires ResolveStep(s, d, names).result.Ok?
    ensures var r := ResolveStep(s, d, names);
            && WellFormed(r.state.tables.dictionaries[d], r.state.nextId)
            && NamesOf(r.result.value) == (set n | n in names)
            && |r.result.value| == |set n | n in names|
  {
    var rows := s.tables.dictionaries[d];
    var missing := Unmatched(names, NamesOf(rows));
    UnmatchedMembers(names, NamesOf(rows));
    InsertWellFormed(rows, missing, s.nextId);
    ResolvedCovers(rows, names, s.nextId);
    SelectOnePerName(Resolved(rows, names, s.nextId), names, s.nextId + |missing|);
  }


  // ------------------------------------------------------- recorded relations

  ghost predicate Covers(rows: seq<Row>, names: seq<string>) {
    forall n :: n in names ==> n in NamesOf(rows)
  }

  /** Title `id` is linked through join table `j` to exactly the rows named in `names`. */
  ghost predicate JoinRecorded(t: Tables, j: JoinTable, id: nat, names: seq<string>)
    requires Complete(t)
  {
    var rows := t.dictionaries[TargetOf(j)];
    Covers(rows, names) && LinksOfTitle(t.joins[j], id) == LinksFor(id, Select(rows, names))
  }

  /** Title `id` has, under `role`, exactly the people named in `names`. */
  ghost predicate PeopleRecorded(t: Tables, role: Role, id: nat, names: seq<string>)
    requires Complete(t)
  {
    var rows := t.dictionaries[People];
    Covers(rows, names) && PersonLinksOfTitle(t.titlePeople, id, role) == PersonLinksFor(id, Select(rows, names), role)
  }

  /** Title `id` has one rating row per entry, pointing at the source the entry names. */
  ghost predicate RatingsRecorded(t: Tables, id: nat, ratings: seq<RatingEntry>)
    requires Complete(t)
  {
    var sources := Select(t.dictionaries[RatingSource], SourceNames(ratings));
    && (forall k :: 0 <= k < |ratings| ==> ratings[k].source in NamesOf(sources))
    && RatingsOfTitle(t.titleRatings, id) == RatingRowsFor(id, ratings, sources)
  }

  /** What processor `p` has recorded for title `id`. */
  ghost predicate Recorded(t: Tables, id: nat, plan: Plan, p: Processor)
    requires Complete(t)
  {
    match p
    case Links(j) => JoinRecorded(t, j, id, Names(LinkWork(plan, j)))
    case Credits(role) => PeopleRecorded(t, role, id, Names(CreditWork(plan, role)))
    case Ratings => RatingsRecorded(t, id, plan.ratings)
  }

  /** No row of the table processor `p` writes refers to title `id`. */
  ghost predicate Untouched(t: Tables, id: nat, p: Processor)
    requires Complete(t)
  {
    match p
    case Links(j) => LinksOfTitle(t.joins[j], id) == []
    case Credits(role) => PersonLinksOfTitle(t.titlePeople, id, role) == []
    case Ratings => RatingsOfTitle(t.titleRatings, id) == []
  }

  /** Everything the processors record for title `id`. */
  ghost predicate RelationsRecorded(t: Tables, id: nat, plan: Plan)
    requires Complete(t)
  {
    forall p: Processor :: Recorded(t, id, plan, p)
  }

  /** No join, people or rating row refers to `id` yet. */
  ghost predicate Unlinked(t: Tables, id: nat)
    requires Complete(t)
  {
    forall p: Processor :: Untouched(t, id, p)
  }

  /** Every processor is among the seven. */
  lemma AllProcessorsListed(p: Processor)
    ensures p in Processors
  {
    match p {
      case Links(j) =>
        match j {
          case TitleGenre =>
          case TitleLanguage =>
          case TitleCountry =>
        }
      case Credits(role) =>
        match role {
          case Actor =>
          case Writer =>
          case Director =>
        }
      case Ratings =>
    }
  }

  /**
   * What processor `p` may change between `t0` and `t1`: it never touches
   * the title table, only appends, and writes only its own tables; a people
   * processor appends only names that were not stored and links under its
   * own role.
   */
  ghost predicate StepFrame(t0: Tables, t1: Tables, p: Processor)
    requires Complete(t0) && Complete(t1)
  {
    && t1.titles == t0.titles && Grows(t0, t1)
    && match p
       case Links(j) =>
         && t1.titlePeople == t0.titlePeople && t1.titleRatings == t0.titleRatings
         && (forall d :: d != TargetOf(j) ==> t1.dictionaries[d] == t0.dictionaries[d])
         && (forall j' :: j' != j ==> t1.joins[j'] == t0.joins[j'])
       case Credits(role) =>
         && t1.joins == t0.joins && t1.titleRatings == t0.titleRatings
         && (forall d :: d != People ==> t1.dictionaries[d] == t0.dictionaries[d])
         && (forall k :: |t0.dictionaries[People]| <= k < |t1.dictionaries[People]| ==>
               t1.dictionaries[People][k].name !in NamesOf(t0.dictionaries[People]))
         && (forall k :: |t0.titlePeople| <= k < |t1.titlePeople| ==> t1.titlePeople[k].role == role)
       case Ratings =>
         && t1.joins == t0.joins && t1.titlePeople == t0.titlePeople
         && (forall d :: d != RatingSource ==> t1.dictionaries[d] == t0.dictionaries[d])
  }

  /** Doing nothing stays within every frame. */
  lemma FrameUnchanged(t: Tables, p: Processor)
    requires Complete(t)
    ensures StepFrame(t, t, p)
  {
  }

  /** Appending rows to the target dictionary of `j` and links to `j` stays within the frame of `Links(j)`. */
  lemma LinksFrame(t: Tables, j: JoinTable, rows: seq<Row>, links: seq<Link>)
    requires Complete(t) && t.dictionaries[TargetOf(j)] <= rows
    ensures var t' := t.(dictionaries := t.dictionaries[TargetOf(j) := rows], joins := t.joins[j := t.joins[j] + links]);
            Complete(t') && StepFrame(t, t', Links(j))
  {
  }

  /** Appending people not stored yet, and person links under `role`, stays within the frame of `Credits(role)`. */
  lemma CreditsFrame(t: Tables, role: Role, added: seq<Row>, links: seq<PersonLink>)
    requires Complete(t)
    requires forall x :: x in added ==> x.name !in NamesOf(t.dictionaries[People])
    requires forall l :: l in links ==> l.role == role
    ensures var t' := t.(dictionaries := t.dictionaries[People := t.dictionaries[People] + added],
                         titlePeople := t.titlePeople + links);
            Complete(t') && StepFrame(t, t', Credits(role))
  {
    var t' := t.(dictionaries := t.dictionaries[People := t.dictionaries[People] + added],
                 titlePeople := t.titlePeople + links);
    forall k | |t.dictionaries[People]| <= k < |t'.dictionaries[People]|
      ensures t'.dictionaries[People][k].name !in NamesOf(t.dictionaries[People])
    {
      assert t'.dictionaries[People][k] == added[k - |t.dictionaries[People]|];
    }
    forall k | |t.titlePeople| <= k < |t'.titlePeople|
      ensures t'.titlePeople[k].role == role
    {
      assert t'.titlePeople[k] == links[k - |t.titlePeople|];
    }
  }

  /** Appending rating sources and rating rows stays within the frame of `Ratings`. */
  lemma RatingsFrame(t: Tables, rows: seq<Row>, ratings: seq<RatingRow>)
    requires Complete(t) && t.dictionaries[RatingSource] <= rows
    ensures var t' := t.(dictionaries := t.dictionaries[RatingSource := rows], titleRatings := t.titleRatings + ratings);
            Complete(t') && StepFrame(t, t', Ratings)
  {
  }

  lemma FieldStepFrame(s: State, j: JoinTable, id: nat, work: Work)
    requires Complete(s.tables)
    ensures StepFrame(s.tables, FieldStep(s, j, id, work).state.tables, Links(j))
  {
    if work.None? {
      FrameUnchanged(s.tables, Links(j));
    } else {
      var res := ResolveStep(s, TargetOf(j), work.value);
      ResolveStepFrame(s, TargetOf(j), work.value);
      if res.result.Err? {
        FrameUnchanged(s.tables, Links(j));
      } else {
        LinksFrame(s.tables, j, res.state.tables.dictionaries[TargetOf(j)], LinksFor(id, res.result.value));
      }
    }
  }

  lemma PeopleStepFrame(s: State, id: nat, work: Work, role: Role)
    requires Complete(s.tables)
    ensures StepFrame(s.tables, PeopleStep(s, id, work, role).state.tables, Credits(role))
  {
    if work.None? {
      FrameUnchanged(s.tables, Credits(role));
    } else {
      var rows := s.tables.dictionaries[People];
      var res := ResolveStep(s, People, work.value);
      if res.result.Err? {
        FrameUnchanged(s.tables, Credits(role));
      } else {
        var missing := Unmatched(work.value, NamesOf(rows));
        var added := NewRows(missing, s.nextId);
        UnmatchedMembers(work.value, NamesOf(rows));
        assert forall x :: x in added ==> x.name in missing;
        var links := PersonLinksFor(id, res.result.value, role);
        CreditsFrame(s.tables, role, added, links);
      }
    }
  }

  lemma RatingsStepFrame(s: State, id: nat, ratings: seq<RatingEntry>)
    requires Complete(s.tables)
    ensures StepFrame(s.tables, RatingsStep(s, id, ratings).state.tables, Ratings)
  {
    if |ratings| == 0 {
      FrameUnchanged(s.tables, Ratings);
    } else {
      var res := ResolveStep(s, RatingSource, SourceNames(ratings));
      ResolveStepFrame(s, RatingSource, SourceNames(ratings));
      if res.result.Err? {
        FrameUnchanged(s.tables, Ratings);
      } else {
        assert forall k :: 0 <= k < |ratings| ==> ratings[k].source in SourceNames(ratings);
        RatingsFrame(s.tables, res.state.tables.dictionaries[RatingSource],
                     RatingRowsFor(id, ratings, res.result.value));
      }
    }
  }

  /** Each processor stays within its frame. */
  lemma ProcessorStepFrame(s: State, id: nat, plan: Plan, p: Processor)
    requires Complete(s.tables)
    ensures StepFrame(s.tables, ProcessorStep(s, id, plan, p).state.tables, p)
  {
    match p
    case Links(j) => FieldStepFrame(s, j, id, LinkWork(plan, j));
    case Credits(role) => PeopleStepFrame(s, id, CreditWork(plan, role), role);
    case Ratings => RatingsStepFrame(s, id, plan.ratings);
  }

  lemma FieldStepEffect(s: State, j: JoinTable, id: nat, work: Work)
    requires Complete(s.tables) && LinksOfTitle(s.tables.joins[j], id) == []
    requires FieldStep(s, j, id, work).result.Pass?
    ensures JoinRecorded(FieldStep(s, j, id, work).state.tables, j, id, Names(work))
  {
    var rows := s.tables.dictionaries[TargetOf(j)];
    if work.None? {
      SelectNone(rows, []);
    } else {
      var res := ResolveStep(s, TargetOf(j), work.value);
      var links := LinksFor(id, res.result.value);
      ResolvedCovers(rows, work.value, s.nextId);
      LinksOfTitleAppend(s.tables.joins[j], links, id);
      LinksOfTitleAll(links, id);
    }
  }

  lemma PeopleStepEffect(s: State, role: Role, id: nat, work: Work)
    requires Complete(s.tables) && PersonLinksOfTitle(s.tables.titlePeople, id, role) == []
    requires PeopleStep(s, id, work, role).result.Pass?
    ensures PeopleRecorded(PeopleStep(s, id, work, role).state.tables, role, id, Names(work))
  {
    var rows := s.tables.dictionaries[People];
    if work.None? {
      SelectNone(rows, []);
    } else {
      var res := ResolveStep(s, People, work.value);
      var links := PersonLinksFor(id, res.result.value, role);
      ResolvedCovers(rows, work.value, s.nextId);
      PersonLinksOfTitleAppend(s.tables.titlePeople, links, id, role);
      PersonLinksOfTitleAll(links, id, role);
    }
  }

  lemma RatingsStepEffect(s: State, id: nat, ratings: seq<RatingEntry>)
    requires Complete(s.tables) && RatingsOfTitle(s.tables.titleRatings, id) == []
    requires RatingsStep(s, id, ratings).result.Pass?
    ensures RatingsRecorded(RatingsStep(s, id, ratings).state.tables, id, ratings)
  {
    var names := SourceNames(ratings);
    var rows := s.tables.dictionaries[RatingSource];
    if |ratings| == 0 {
      SelectNone(rows, []);
    } else {
      var res := ResolveStep(s, RatingSource, names);
      assert forall k :: 0 <= k < |ratings| ==> ratings[k].source in names;
      var added := RatingRowsFor(id, ratings, res.result.value);
      RatingsOfTitleAppend(s.tables.titleRatings, added, id);
      RatingsOfTitleAll(added, id);
    }
  }

  /** A processor that succeeds records its relations for a title it had not touched. */
  lemma ProcessorStepEffect(s: State, id: nat, plan: Plan, p: Processor)
    requires Complete(s.tables) && Untouched(s.tables, id, p)
    requires ProcessorStep(s, id, plan, p).result.Pass?
    ensures Recorded(ProcessorStep(s, id, plan, p).state.tables, id, plan, p)
  {
    match p
    case Links(j) => FieldStepEffect(s, j, id, LinkWork(plan, j));
    case Credits(role) => PeopleStepEffect(s, role, id, CreditWork(plan, role));
    case Ratings => RatingsStepEffect(s, id, plan.ratings);
  }

  /** A processor that stays within its frame keeps what another processor `q` recorded, or left untouched. */
  lemma FrameKeeps(t0: Tables, t1: Tables, id: nat, plan: Plan, p: Processor, q: Processor)
    requires Complete(t0) && Complete(t1) && StepFrame(t0, t1, p) && p != q
    ensures Recorded(t0, id, plan, q) ==> Recorded(t1, id, plan, q)
    ensures Untouched(t0, id, q) ==> Untouched(t1, id, q)
  {
    if p.Links? && q.Links? {
      assert TargetOf(q.j) != TargetOf(p.j);
    } else if p.Credits? && q.Credits? {
      CreditsFrameKeeps(t0, t1, id, p.role, q.role, Names(CreditWork(plan, q.role)));
    }
  }

  /**
   * A later people processor leaves an earlier one's record intact: the
   * rows it adds carry names that were not stored, and its links carry
   * another role.
   */
  lemma CreditsFrameKeeps(t0: Tables, t1: Tables, id: nat, role: Role, role': Role, names: seq<string>)
    requires Complete(t0) && Complete(t1) && StepFrame(t0, t1, Credits(role)) && role != role'
    ensures PeopleRecorded(t0, role', id, names) ==> PeopleRecorded(t1, role', id, names)
    ensures PersonLinksOfTitle(t1.titlePeople, id, role') == PersonLinksOfTitle(t0.titlePeople, id, role')
  {
    OtherRoleLinksKept(t0.titlePeople, t1.titlePeople, id, role, role');
    if Covers(t0.dictionaries[People], names) {
      NewPeopleKeepSelection(t0.dictionaries[People], t1.dictionaries[People], names);
    }
  }

  /** Links appended under one role leave a title's links under any other role as they were. */
  lemma OtherRoleLinksKept(a: seq<PersonLink>, b: seq<PersonLink>, id: nat, role: Role, role': Role)
    requires a <= b && role != role'
    requires forall k :: |a| <= k < |b| ==> b[k].role == role
    ensures PersonLinksOfTitle(b, id, role') == PersonLinksOfTitle(a, id, role')
  {
    var links := b[|a|..];
    assert b == a + links;
    forall l | l in links ensures l.titleId != id || l.role != role' {
      var k :| 0 <= k < |links| && links[k] == l;
      assert l == b[|a| + k];
    }
    PersonLinksOfTitleAppend(a, links, id, role');
    PersonLinksOfTitleOther(links, id, role');
  }

  /** Appending people not stored before changes neither which listed names are stored nor the rows a query returns. */
  lemma NewPeopleKeepSelection(rows0: seq<Row>, rows1: seq<Row>, names: seq<string>)
    requires rows0 <= rows1 && Covers(rows0, names)
    requires forall k :: |rows0| <= k < |rows1| ==> rows1[k].name !in NamesOf(rows0)
    ensures Covers(rows1, names) && Select(rows1, names) == Select(rows0, names)
  {
    var added := rows1[|rows0|..];
    assert rows1 == rows0 + added;
    forall x | x in added ensures x.name !in names {
      var k :| 0 <= k < |added| && added[k] == x;
      assert x == rows1[|rows0| + k];
    }
    SelectAppend(rows0, added, names);
    SelectNone(added, names);
    RowIdsGrow(rows0, rows1);
  }

  /**
   * Processors that all succeed, each on a table where the title is still
   * untouched, record their relations, and keep whatever was recorded
   * before them.
   */
  lemma {:induction false} RunProcessorsRecords(s: State, id: nat, plan: Plan, ps: seq<Processor>)
    requires Complete(s.tables) && Distinct(ps)
    requires forall p :: p in ps ==> Untouched(s.tables, id, p)
    requires RunProcessors(s, id, plan, ps).result.Pass?
    ensures var t := RunProcessors(s, id, plan, ps).state.tables;
            && t.titles == s.tables.titles && Grows(s.tables, t)
            && (forall p :: p in ps ==> Recorded(t, id, plan, p))
            && (forall q :: q !in ps && Recorded(s.tables, id, plan, q) ==> Recorded(t, id, plan, q))
    decreases |ps|
  {
    if |ps| > 0 {
      var first := ProcessorStep(s, id, plan, ps[0]);
      var rest := ps[1..];
      var t := RunProcessors(s, id, plan, ps).state.tables;
      ProcessorStepFrame(s, id, plan, ps[0]);
      ProcessorStepEffect(s, id, plan, ps[0]);
      forall q | q != ps[0]
        ensures Recorded(s.tables, id, plan, q) ==> Recorded(first.state.tables, id, plan, q)
        ensures Untouched(s.tables, id, q) ==> Untouched(first.state.tables, id, q)
      {
        FrameKeeps(s.tables, first.state.tables, id, plan, ps[0], q);
      }
      assert forall p :: p in rest ==> p != ps[0] && p in ps;
      RunProcessorsRecords(first.state, id, plan, rest);
      GrowsTransitive(s.tables, first.state.tables, t);
      forall p | p in ps ensures Recorded(t, id, plan, p) {
        if p != ps[0] {
          assert p in rest;
        }
      }
    }
  }

  /** The relation processors never touch the title table. */
  lemma {:induction false} RunProcessorsKeepTitles(s: State, id: nat, plan: Plan, ps: seq<Processor>)
    requires Complete(s.tables)
    ensures RunProcessors(s, id, plan, ps).state.tables.titles == s.tables.titles
    decreases |ps|
  {
    if |ps| > 0 {
      ProcessorStepFrame(s, id, plan, ps[0]);
      RunProcessorsKeepTitles(ProcessorStep(s, id, plan, ps[0]).state, id, plan, ps[1..]);
    }
  }

  /**
   * When the processors all succeed on a title nothing referred to yet,
   * the title is linked to exactly the genres, languages, countries,
   * actors, writers, directors and rating sources it names, and every
   * table only grew.
   */
  lemma RelationsRecordedOnSuccess(s: State, id: nat, plan: Plan)
    requires Complete(s.tables) && Unlinked(s.tables, id)
    requires RelationsStep(s, id, plan).result.Pass?
    ensures Grows(s.tables, RelationsStep(s, id, plan).state.tables)
    ensures RelationsRecorded(RelationsStep(s, id, plan).state.tables, id, plan)
  {
    RunProcessorsRecords(s, id, plan, Processors);
    forall p: Processor ensures Recorded(RelationsStep(s, id, plan).state.tables, id, plan, p) {
      AllProcessorsListed(p);
    }
  }

  /** A title row appended with the next id is referred to by nothing yet. */
  lemma NewTitleUnlinked(t: Tables, bound: nat)
    requires Consistent(t, bound)
    ensures Complete(t) && Unlinked(t, bound)
  {
    forall x | x in TitleIds(t.titles) ensures x < bound {
      var row :| row in t.titles && row.id == x;
    }
    forall p: Processor ensures Untouched(t, bound, p) {
      match p
      case Links(j) => LinksOfTitleNone(t.joins[j], bound);
      case Credits(role) => PersonLinksOfTitleOther(t.titlePeople, bound, role);
      case Ratings => RatingsOfTitleNone(t.titleRatings, bound);
    }
  }

  /** Whether a title is referred to does not depend on the title table. */
  lemma UnlinkedIgnoresTitles(t: Tables, titles: seq<TitleRow>, id: nat)
    requires Complete(t) && Unlinked(t, id)
    ensures Complete(t.(titles := titles)) && Unlinked(t.(titles := titles), id)
  {
    forall p: Processor ensures Untouched(t.(titles := titles), id, p) {
      assert Untouched(t, id, p);
    }
  }

  /**
   * A transaction that commits only added rows and recorded all of the new
   * title's relations.
   */
  lemma CreateWithRelationsRecords(s: State, data: TitleData, plan: Plan)
    requires Complete(s.tables) && Unlinked(s.tables, s.nextId)
    requires CreateWithRelationsStep(s, data, plan).result.Ok?
    ensures var r := CreateWithRelationsStep(s, data, plan);
            && Grows(s.tables, r.state.tables)
            && RelationsRecorded(r.state.tables, s.nextId, plan)
  {
    var id := s.nextId;
    var s1 := Admitted(s, data);
    CreateWithRelationsCommits(s, data, plan);
    UnlinkedIgnoresTitles(s.tables, s1.tables.titles, id);
    RelationsRecordedOnSuccess(s1, id, plan);
    GrowsTransitive(s.tables, s1.tables, RelationsStep(s1, id, plan).state.tables);
  }

  /** A transaction that commits is the title insertion followed by relation processors that all passed. */
  lemma CreateWithRelationsCommits(s: State, data: TitleData, plan: Plan)
    requires Complete(s.tables)
    requires CreateWithRelationsStep(s, data, plan).result.Ok?
    ensures Complete(Admitted(s, data).tables) && Grows(s.tables, Admitted(s, data).tables)
    ensures RelationsStep(Admitted(s, data), s.nextId, plan).result.Pass?
    ensures CreateWithRelationsStep(s, data, plan).state == RelationsStep(Admitted(s, data), s.nextId, plan).state
  {
  }

  /**
   * A successful ingestion appends the title built from the record under
   * the next id, only adds rows, and records all of the title's relations.
   */
  lemma CreateTitleRecordsRelations(s: State, m: MovieResponse)
    requires Consistent(s.tables, s.nextId)
    requires CreateTitleStep(s, Received(m)).result.Ok?
    ensures var r := CreateTitleStep(s, Received(m));
            && r.result.value.titleId == s.nextId
            && r.state.tables.titles == s.tables.titles + [TitleRow(s.nextId, BuildTitleData(m))]
            && Grows(s.tables, r.state.tables)
            && RelationsRecorded(r.state.tables, s.nextId, PlanOf(m))
  {
    var data := BuildTitleData(m);
    var plan := PlanOf(m);
    assert CreateTitleStep(s, Received(m)).state == CreateWithRelationsStep(s, data, plan).state;
    NewTitleUnlinked(s.tables, s.nextId);
    CreateWithRelationsRecords(s, data, plan);
  }

  /** A record whose `imdbID` is already stored is refused with a server error, and nothing is written. */
  lemma DuplicateImdbIdRefused(s: State, m: MovieResponse)
    requires Complete(s.tables)
    requires m.response != Some("False") && ValidateMovieData(m).Pass?
    requires ImdbTaken(s.tables.titles, m.imdbID)
    ensures CreateTitleStep(s, Received(m)) == Step(Err(InternalServerError("Failed to create title")), s)
  {
    assert BuildTitleData(m).imdbId == m.imdbID;
  }

  /** An invalid record is refused with the list of missing fields before anything is written. */
  lemma InvalidRecordRefused(s: State, m: MovieResponse)
    requires Complete(s.tables)
    requires m.response != Some("False") && ValidateMovieData(m).Fail?
    ensures CreateTitleStep(s, Received(m))
         == Step(Err(BadRequest("Missing required fields: " + JsText.Join(Missing(m, RequiredFields), ", "))), s)
  {
  }

  /**
   * A genre (or any name) that is new and listed twice in one field makes
   * the whole ingestion fail, leaving the tables as they were.
   */
  lemma RepeatedNewGenreFailsIngestion(s: State, m: MovieResponse, i: nat, j: nat)
    requires Complete(s.tables)
    requires m.response != Some("False") && ValidateMovieData(m).Pass?
    requires !ImdbTaken(s.tables.titles, m.imdbID)
    requires var names := Names(FieldWork(m.genre));
             i < j < |names| && names[i] == names[j] && names[i] !in NamesOf(s.tables.dictionaries[Genre])
    ensures CreateTitleStep(s, Received(m)).result == Err(InternalServerError("Failed to create title"))
    ensures CreateTitleStep(s, Received(m)).state.tables == s.tables
  {
    var data := BuildTitleData(m);
    var plan := PlanOf(m);
    assert data.imdbId == m.imdbID;
    RepeatedNewGenreFailsRelations(Admitted(s, data), s.nextId, plan, i, j);
    assert CreateWithRelationsStep(s, data, plan).result == Err(UniqueViolation("genre"));
  }

  /** The genre processor runs first, so a repeated new genre stops the relations with a unique violation. */
  lemma RepeatedNewGenreFailsRelations(s: State, id: nat, plan: Plan, i: nat, j: nat)
    requires Complete(s.tables)
    requires var names := Names(plan.genres);
             i < j < |names| && names[i] == names[j] && names[i] !in NamesOf(s.tables.dictionaries[Genre])
    ensures RelationsStep(s, id, plan).result == Fail(UniqueViolation("genre"))
  {
    ResolveFailsIffNewNameRepeats(s, Genre, plan.genres.value);
    assert ProcessorStep(s, id, plan, Links(TitleGenre)).result == Fail(UniqueViolation("genre"));
  }
}
