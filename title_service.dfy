/**
 * `TitleService` as it runs inside one Prisma transaction `tx`: each method
 * reads and writes the tables of a `Store` in the order the source does, and
 * is proved to leave exactly the state, and return exactly the outcome, of
 * the matching function of `TitleIngest`.
 */
module TitleService {
  import opened Wrappers
  import opened TitleFields
  import opened TitleStore
  import opened TitleIngest

  /** The database `tx` holds, with its id sequence. */
  function StateOf(tx: Store): State
    reads tx
  {
    State(tx.Snapshot(), tx.nextId)
  }

  /**
   * The lookup-insert-lookup sequence shared by `upsertAndLinkEntities`,
   * `processPeople` and `processRatings`: find the stored rows named in
   * `names`, insert the names not found in one `createMany`, and find the
   * rows again.
   */
  method Resolve(tx: Store, d: Dictionary, names: seq<string>) returns (r: Result<seq<Row>, Failure>)
    requires tx.Valid()
    modifies tx
    ensures tx.Valid() && tx.titles == old(tx.titles)
    ensures Step(r, StateOf(tx)) == ResolveStep(old(StateOf(tx)), d, names)
  {
    ghost var rows := tx.dictionaries[d];
    var existing := Select(tx.dictionaries[d], names);
    var existingNames := NamesOf(existing);
    var newNames := Unmatched(names, existingNames);
    SelectNames(rows, names);
    UnmatchedCongruent(names, existingNames, NamesOf(rows));
    UnmatchedMembers(names, NamesOf(rows));
    var created := CreateMissing(tx, d, newNames);
    if created.Fail? {
      return Err(created.error);
    }
    var all := Select(tx.dictionaries[d], names);
    r := Ok(all);
  }

  /** `if (newNames.length > 0) await tx[entityTable].createMany(...)`: insert the names not found, if any. */
  method CreateMissing(tx: Store, d: Dictionary, newNames: seq<string>) returns (r: Outcome<Failure>)
    requires tx.Valid()
    requires forall n :: n in newNames ==> n !in NamesOf(tx.dictionaries[d])
    modifies tx
    ensures tx.Valid() && tx.titles == old(tx.titles)
    ensures r.Fail? <==> !Distinct(newNames)
    ensures r.Fail? ==> && r.error == UniqueViolation(TableName(d))
                        && tx.Snapshot() == old(tx.Snapshot()) && tx.nextId == old(tx.nextId)
    ensures r.Pass? ==> && tx.nextId == old(tx.nextId) + |newNames|
                        && tx.Snapshot() == old(tx.Snapshot()).(dictionaries :=
                             old(tx.dictionaries)[d := old(tx.dictionaries[d]) + NewRows(newNames, old(tx.nextId))])
  {
    if |newNames| > 0 {
      r := tx.InsertNames(d, newNames);
    } else {
      assert tx.dictionaries[d] + NewRows(newNames, tx.nextId) == tx.dictionaries[d];
      assert tx.dictionaries[d := tx.dictionaries[d]] == tx.dictionaries;
      r := Pass;
    }
  }

  /** `upsertAndLinkEntities`: resolve the names, then one join row per row found. */
  method UpsertAndLinkEntities(tx: Store, j: JoinTable, names: seq<string>, titleId: nat) returns (r: Outcome<Failure>)
    requires tx.Valid() && titleId in TitleIds(tx.titles)
    modifies tx
    ensures tx.Valid() && tx.titles == old(tx.titles)
    ensures Step(r, StateOf(tx)) == LinkStep(old(StateOf(tx)), j, names, titleId)
  {
    var all := Resolve(tx, TargetOf(j), names);
    if all.Err? {
      return Fail(all.error);
    }
    var links := LinksFor(titleId, all.value);
    SelectMembers(tx.dictionaries[TargetOf(j)], names);
    LinksForReference(titleId, all.value, tx.dictionaries[TargetOf(j)]);
    tx.InsertLinks(j, links);
    r := Pass;
  }

  /** `processGenres`, `processLanguages`, `processCountries`: skip an empty or "N/A" field, else parse and link. */
  method ProcessField(tx: Store, j: JoinTable, titleId: nat, field: Option<string>) returns (r: Outcome<Failure>)
    requires tx.Valid() && titleId in TitleIds(tx.titles)
    modifies tx
    ensures tx.Valid() && tx.titles == old(tx.titles)
    ensures Step(r, StateOf(tx)) == FieldStep(old(StateOf(tx)), j, titleId, FieldWork(field))
  {
    if !Truthy(field) || field.value == NotAvailable {
      return Pass;
    }
    var names := ParseCommaSeparatedValues(field.value);
    r := UpsertAndLinkEntities(tx, j, names, titleId);
  }

  /** `processPeople`: skip an empty or "N/A" field, else resolve the names and link each person under `role`. */
  method ProcessPeople(tx: Store, titleId: nat, field: Option<string>, role: Role) returns (r: Outcome<Failure>)
    requires tx.Valid() && titleId in TitleIds(tx.titles)
    modifies tx
    ensures tx.Valid() && tx.titles == old(tx.titles)
    ensures Step(r, StateOf(tx)) == PeopleStep(old(StateOf(tx)), titleId, FieldWork(field), role)
  {
    if !Truthy(field) || field.value == NotAvailable {
      return Pass;
    }
    var names := ParseCommaSeparatedValues(field.value);
    var all := Resolve(tx, People, names);
    if all.Err? {
      return Fail(all.error);
    }
    var links := PersonLinksFor(titleId, all.value, role);
    SelectMembers(tx.dictionaries[People], names);
    PersonLinksForReference(titleId, all.value, role, tx.dictionaries[People]);
    tx.InsertPersonLinks(links);
    r := Pass;
  }

  /**
   * `processRatings`: skip an empty list, else resolve the source names,
   * map each source name to its id, and insert one rating row per entry.
   */
  method ProcessRatings(tx: Store, titleId: nat, ratings: seq<RatingEntry>) returns (r: Outcome<Failure>)
    requires tx.Valid() && titleId in TitleIds(tx.titles)
    modifies tx
    ensures tx.Valid() && tx.titles == old(tx.titles)
    ensures Step(r, StateOf(tx)) == RatingsStep(old(StateOf(tx)), titleId, ratings)
  {
    if |ratings| == 0 {
      return Pass;
    }
    var sourceNames := SourceNames(ratings);
    var all := Resolve(tx, RatingSource, sourceNames);
    if all.Err? {
      return Fail(all.error);
    }
    var sources := all.value;
    SelectMembers(tx.dictionaries[RatingSource], sourceNames);
    assert forall k :: 0 <= k < |ratings| ==> ratings[k].source in NamesOf(sources) by {
      forall k | 0 <= k < |ratings| ensures ratings[k].source in NamesOf(sources) {
        assert sourceNames[k] in sourceNames;
      }
    }
    InsertRatingRows(tx, titleId, ratings, sources);
    r := Pass;
  }

  /** The tail of `processRatings`: the name-to-id map of the sources found, and one rating row per entry. */
  method InsertRatingRows(tx: Store, titleId: nat, ratings: seq<RatingEntry>, sources: seq<Row>)
    requires tx.Valid() && titleId in TitleIds(tx.titles)
    requires forall k :: 0 <= k < |ratings| ==> ratings[k].source in NamesOf(sources)
    requires forall x :: x in sources ==> x in tx.dictionaries[RatingSource]
    modifies tx
    ensures tx.Valid() && tx.nextId == old(tx.nextId)
    ensures tx.Snapshot() == old(tx.Snapshot()).(titleRatings := old(tx.titleRatings) + RatingRowsFor(titleId, ratings, sources))
  {
    var sourceMap := IdsByName(sources);
    var rows := RatingRowsWith(titleId, ratings, sourceMap);
    RatingRowsForReference(titleId, ratings, sources, tx.dictionaries[RatingSource]);
    tx.InsertRatings(rows);
  }

  /** One of the seven calls of the `Promise.all` block, reading its field off the record. */
  method RunProcessor(tx: Store, titleId: nat, m: MovieResponse, p: Processor) returns (r: Outcome<Failure>)
    requires tx.Valid() && titleId in TitleIds(tx.titles)
    modifies tx
    ensures tx.Valid() && tx.titles == old(tx.titles)
    ensures Step(r, StateOf(tx)) == ProcessorStep(old(StateOf(tx)), titleId, PlanOf(m), p)
  {
    match p {
      case Links(TitleGenre) => r := ProcessField(tx, TitleGenre, titleId, m.genre);
      case Links(TitleLanguage) => r := ProcessField(tx, TitleLanguage, titleId, m.language);
      case Links(TitleCountry) => r := ProcessField(tx, TitleCountry, titleId, m.country);
      case Credits(Actor) => r := ProcessPeople(tx, titleId, m.actors, Actor);
      case Credits(Writer) => r := ProcessPeople(tx, titleId, m.writer, Writer);
      case Credits(Director) => r := ProcessPeople(tx, titleId, m.director, Director);
      case Ratings => r := ProcessRatings(tx, titleId, m.ratings);
    }
  }

  /** The `Promise.all` block: the seven calls in order; the first that throws ends the block. */
  method ProcessRelations(tx: Store, titleId: nat, m: MovieResponse) returns (r: Outcome<Failure>)
    requires tx.Valid() && titleId in TitleIds(tx.titles)
    modifies tx
    ensures tx.Valid() && tx.titles == old(tx.titles)
    ensures Step(r, StateOf(tx)) == RelationsStep(old(StateOf(tx)), titleId, PlanOf(m))
  {
    var i := 0;
    while i < |Processors|
      invariant 0 <= i <= |Processors|
      invariant tx.Valid() && tx.titles == old(tx.titles)
      invariant RelationsStep(old(StateOf(tx)), titleId, PlanOf(m))
             == RunProcessors(StateOf(tx), titleId, PlanOf(m), Processors[i..])
    {
      var step := RunProcessor(tx, titleId, m, Processors[i]);
      if step.Fail? {
        return step;
      }
      i := i + 1;
    }
    r := Pass;
  }

  /**
   * `createTitleWithRelations`: insert the title row, then run the
   * relation processors; when any of them throws, the transaction is rolled
   * back (the id sequence is not) and the error propagates.
   */
  method CreateTitleWithRelations(tx: Store, m: MovieResponse) returns (r: Result<nat, Failure>)
    requires tx.Valid()
    modifies tx
    ensures tx.Valid()
    ensures Step(r, StateOf(tx)) == CreateWithRelationsStep(old(StateOf(tx)), BuildTitleData(m), PlanOf(m))
  {
    var before := tx.Snapshot();
    ghost var bound := tx.nextId;
    var title := tx.CreateTitleRow(BuildTitleData(m));
    if title.Err? {
      return Err(title.error);
    }
    assert title.value in TitleIds(tx.titles) by {
      assert tx.titles[|tx.titles| - 1] == TitleRow(title.value, BuildTitleData(m));
    }
    assert StateOf(tx) == Admitted(old(StateOf(tx)), BuildTitleData(m));
    var relations := ProcessRelations(tx, title.value, m);
    if relations.Fail? {
      tx.Restore(before, bound);
      return Err(relations.error);
    }
    r := Ok(title.value);
  }

  /**
   * `createTitle`: fetch, validate, run the transaction; a `BadRequest`
   * propagates, any other error becomes "Failed to create title".
   */
  method CreateTitle(tx: Store, fetched: FetchOutcome) returns (r: Result<CreateTitleResult, Failure>)
    requires tx.Valid()
    modifies tx
    ensures tx.Valid()
    ensures Step(r, StateOf(tx)) == CreateTitleStep(old(StateOf(tx)), fetched)
  {
    var movie := ClassifyFetch(fetched);
    if movie.Err? {
      return Err(MapError(movie.error));
    }
    var m := movie.value;
    var valid := ValidateMovieData(m);
    if valid.Fail? {
      return Err(MapError(valid.error));
    }
    var titleId := CreateTitleWithRelations(tx, m);
    if titleId.Err? {
      return Err(MapError(titleId.error));
    }
    r := Ok(CreateTitleResult(true, "Title created successfully", titleId.value));
  }
}
