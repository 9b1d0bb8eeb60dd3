/**
 * `main` and the import functions around `create_item`: import every
 * category, then the parent item of each group of rows, then one variant
 * per row, stopping at the first exception.
 *
 * `main` is modelled in two steps.  `PlanImports` runs the loops of `main`
 * over the rows and lists the imports in the order they happen, together
 * with the `KeyError` that the lazy `groupby` raises, if any, after the items
 * it has already handed out.  `Execute` then performs the imports one after
 * another against the catalog service.
 */
module Importer {
  import opened Exceptions
  import opened Rows
  import opened Bodies
  import opened Payloads
  import opened Upsert
  import opened Selection

  /** One call of `import_categories`' loop body, `import_item` or `import_variant_from_item`. */
  datatype Task = ImportCategory(name: string) | ImportItem(row: Row) | ImportVariant(row: Row)

  /** The imports `main` performs, in order, and the exception raised once they are done. */
  datatype Plan = Plan(tasks: seq<Task>, failure: Option<Error>)

  function CategoryTasks(names: seq<string>): seq<Task> {
    seq(|names|, i requires 0 <= i < |names| => ImportCategory(names[i]))
  }

  function ItemTasks(rows: seq<Row>): seq<Task> {
    seq(|rows|, i requires 0 <= i < |rows| => ImportItem(rows[i]))
  }

  function VariantTasks(rows: seq<Row>): seq<Task> {
    seq(|rows|, i requires 0 <= i < |rows| => ImportVariant(rows[i]))
  }

  /** The position of the first row without an `external_id` column, or the number of rows. */
  function FirstUnkeyed(rows: seq<Row>): (j: nat)
    ensures j <= |rows| && Keyed(rows[..j])
    ensures j < |rows| ==> !Has(rows[j], "external_id")
    decreases |rows|
  {
    if rows == [] || !Has(rows[0], "external_id") then 0
    else
      var j := 1 + FirstUnkeyed(rows[1..]);
      assert forall i :: 1 <= i < j ==> rows[..j][i] == rows[1..][..j - 1][i - 1];
      j
  }

  /** A row without the column after only keyed rows is the first unkeyed row. */
  lemma {:induction false} FirstUnkeyedAt(rows: seq<Row>, i: nat)
    requires i <= |rows| && Keyed(rows[..i])
    requires i < |rows| ==> !Has(rows[i], "external_id")
    ensures FirstUnkeyed(rows) == i
    decreases i
  {
    if i > 0 {
      assert rows[..i][0] == rows[0];
      assert Keyed(rows[1..][..i - 1]) by {
        assert forall k :: 1 <= k < i ==> rows[1..][..i - 1][k - 1] == rows[..i][k];
      }
      FirstUnkeyedAt(rows[1..], i - 1);
    }
  }

  lemma TasksAppend(a: seq<Row>, b: seq<Row>)
    ensures ItemTasks(a + b) == ItemTasks(a) + ItemTasks(b)
    ensures VariantTasks(a + b) == VariantTasks(a) + VariantTasks(b)
  {
  }

  /**
   * The items `groupby` hands out: the first row of each run of adjacent rows
   * with equal `external_id`.  A row without the column raises a `KeyError`
   * when `groupby` reaches it, before the group in progress is handed out.
   */
  function ItemPlan(rows: seq<Row>): Plan {
    var j := FirstUnkeyed(rows);
    var parents := ParentRows(rows[..j]);
    if j == |rows| then Plan(ItemTasks(parents), None)
    else Plan(ItemTasks(if parents == [] then [] else parents[..|parents| - 1]), Some(KeyError("external_id")))
  }

  /**
   * `groupby` hands out every group exactly when every row has an
   * `external_id`; otherwise it raises a `KeyError` for that column, after
   * handing out only groups that lie wholly before the first row without one.
   */
  lemma ItemPlanFails(rows: seq<Row>)
    ensures ItemPlan(rows).failure.None? <==> Keyed(rows)
    ensures ItemPlan(rows).failure.Some? ==> ItemPlan(rows).failure.value == KeyError("external_id")
    ensures forall k :: 0 <= k < |ItemPlan(rows).tasks| ==>
      ItemPlan(rows).tasks[k].ImportItem? && ItemPlan(rows).tasks[k].row in rows
  {
    var j := FirstUnkeyed(rows);
    var parents := ParentRows(rows[..j]);
    ParentRowsAreRunStarts(rows[..j]);
    assert forall k :: 0 <= k < |parents| ==> parents[k] in rows;
    if j == |rows| {
      assert rows[..j] == rows;
    }
  }

  /**
   * The imports of `main`: the categories in the order the set yields them,
   * then the items, then, if nothing was raised, one variant per row.
   */
  function ImportPlan(rows: seq<Row>, order: seq<string>): Plan {
    match CategoryNames(rows)
    case Err(e) => Plan([], Some(e))
    case Ok(_) =>
      var items := ItemPlan(rows);
      Plan(CategoryTasks(order) + items.tasks + (if items.failure.None? then VariantTasks(rows) else []),
           items.failure)
  }

  /** Adding a keyed row adds a parent exactly when the row starts a new run. */
  lemma ParentRowsSnoc(rows: seq<Row>)
    requires rows != [] && Keyed(rows)
    ensures Keyed(rows[..|rows| - 1])
    ensures ParentRows(rows) ==
      ParentRows(rows[..|rows| - 1]) +
        (if StartsRun(ExternalIds(rows), |rows| - 1) then [rows[|rows| - 1]] else [])
  {
    var n := |rows| - 1;
    assert forall i :: 0 <= i < n ==> rows[..n][i] == rows[i];
    assert ExternalIds(rows)[..n] == ExternalIds(rows[..n]);
  }

  /** `import_categories`' loop: one import per name, in whatever order the set yields them. */
  method PlanCategories(names: set<string>) returns (tasks: seq<Task>, ghost order: seq<string>)
    ensures |order| == |names| && forall name :: name in order <==> name in names
    ensures forall i, k :: 0 <= i < k < |order| ==> order[i] != order[k]
    ensures tasks == CategoryTasks(order)
  {
    order, tasks := [], [];
    var remaining := names;
    while remaining != {}
      invariant remaining <= names
      invariant forall name :: name in order <==> name in names && name !in remaining
      invariant |order| + |remaining| == |names|
      invariant forall i, k :: 0 <= i < k < |order| ==> order[i] != order[k]
      invariant tasks == CategoryTasks(order)
      decreases |remaining|
    {
      var name :| name in remaining;
      tasks := tasks + [ImportCategory(name)];
      order := order + [name];
      remaining := remaining - {name};
    }
  }

  /** `main`'s loop over `groupby(data, key=external_id)`, importing the first row of each group. */
  method PlanItems(rows: seq<Row>) returns (plan: Plan)
    ensures plan == ItemPlan(rows)
  {
    if |rows| == 0 {
      return Plan([], None);
    }
    var first := Get(rows[0], "external_id");
    if first.Err? {
      FirstUnkeyedAt(rows, 0);
      return Plan([], Some(first.error));
    }
    assert ParentRows(rows[..1]) == [rows[0]];
    var tasks, start, i, _, parents := Groups(rows, first.value);
    ItemPlanAt(rows, i, parents);
    if i < |rows| {
      return Plan(tasks, Some(KeyError("external_id")));
    }
    CloseGroup(parents);
    return Plan(tasks + [ImportItem(rows[start])], None);
  }

  /**
   * The state of the groupby loop before row `i`: the rows so far are keyed,
   * `parents` are their group starts, the last of them (at `start`) is the
   * group in progress, whose key is `key`, and the others are imported.
   */
  ghost predicate GroupState(rows: seq<Row>, i: nat, start: nat, key: string, parents: seq<Row>, tasks: seq<Task>) {
    && 1 <= i <= |rows| && start < i
    && Keyed(rows[..i])
    && parents == ParentRows(rows[..i]) && parents != []
    && parents[|parents| - 1] == rows[start]
    && key == Get(rows[i - 1], "external_id").value
    && tasks == ItemTasks(parents[..|parents| - 1])
  }

  /**
   * Walk the rows after the first, handing out each group once the next one
   * begins, until a row has no `external_id` or the rows run out.
   */
  method Groups(rows: seq<Row>, firstKey: string)
    returns (tasks: seq<Task>, start: nat, i: nat, key: string, ghost parents: seq<Row>)
    requires |rows| > 0 && Get(rows[0], "external_id") == Ok(firstKey)
    ensures GroupState(rows, i, start, key, parents, tasks)
    ensures i < |rows| ==> !Has(rows[i], "external_id")
  {
    tasks := [];
    start, key, i := 0, firstKey, 1;
    parents := [rows[0]];
    assert ParentRows(rows[..1]) == parents;
    while i < |rows|
      invariant GroupState(rows, i, start, key, parents, tasks)
    {
      var next := Get(rows[i], "external_id");
      if next.Err? {
        return;
      }
      GroupAdvance(rows, i, start, key, parents, tasks);
      if next.value != key {
        tasks := tasks + [ImportItem(rows[start])];
        parents := parents + [rows[i]];
        start, key := i, next.value;
      }
      i := i + 1;
    }
  }

  /** Where `groupby` stops: the parents seen so far are handed out, all but the group in progress if it raises. */
  lemma ItemPlanAt(rows: seq<Row>, i: nat, parents: seq<Row>)
    requires i <= |rows| && Keyed(rows[..i]) && parents == ParentRows(rows[..i]) && parents != []
    requires i < |rows| ==> !Has(rows[i], "external_id")
    ensures i == |rows| ==> ItemPlan(rows) == Plan(ItemTasks(parents), None)
    ensures i < |rows| ==> ItemPlan(rows) == Plan(ItemTasks(parents[..|parents| - 1]), Some(KeyError("external_id")))
  {
    FirstUnkeyedAt(rows, i);
  }

  /** Handing out the group in progress imports the last parent. */
  lemma CloseGroup(parents: seq<Row>)
    requires parents != []
    ensures ItemTasks(parents) == ItemTasks(parents[..|parents| - 1]) + [ImportItem(parents[|parents| - 1])]
  {
    TasksAppend(parents[..|parents| - 1], [parents[|parents| - 1]]);
    assert parents[..|parents| - 1] + [parents[|parents| - 1]] == parents;
  }

  /** One more keyed row either extends the group in progress or hands it out and begins the next. */
  lemma GroupAdvance(rows: seq<Row>, i: nat, start: nat, key: string, parents: seq<Row>, tasks: seq<Task>)
    requires GroupState(rows, i, start, key, parents, tasks)
    requires i < |rows| && Has(rows[i], "external_id")
    ensures var next := Get(rows[i], "external_id").value;
      if next == key then GroupState(rows, i + 1, start, key, parents, tasks)
      else GroupState(rows, i + 1, i, next, parents + [rows[i]], tasks + [ImportItem(rows[start])])
  {
    GroupStep(rows, i);
    CloseGroup(parents);
    assert (parents + [rows[i]])[..|parents|] == parents;
  }

  /** One more keyed row starts a new group exactly when its key differs from the previous row's. */
  lemma GroupStep(rows: seq<Row>, i: nat)
    requires 0 < i < |rows| && Keyed(rows[..i]) && Has(rows[i], "external_id")
    ensures Keyed(rows[..i + 1])
    ensures ParentRows(rows[..i + 1]) ==
      ParentRows(rows[..i]) +
        (if Get(rows[i], "external_id").value != Get(rows[i - 1], "external_id").value
         then [rows[i]] else [])
  {
    assert forall k :: 0 <= k < i ==> rows[..i + 1][k] == rows[..i][k];
    assert rows[..i + 1][..i] == rows[..i];
    ghost var keys := ExternalIds(rows[..i + 1]);
    assert keys[i] == Get(rows[i], "external_id").value;
    assert keys[i - 1] == Get(rows[i - 1], "external_id").value;
    ParentRowsSnoc(rows[..i + 1]);
  }

  /** The loops of `main` and `import_categories` over the rows, without the imports themselves. */
  method PlanImports(rows: seq<Row>) returns (plan: Plan, ghost order: seq<string>)
    ensures CategoryNames(rows).Ok? ==>
      && |order| == |CategoryNames(rows).value|
      && (forall name :: name in order <==> name in CategoryNames(rows).value)
      && (forall i, k :: 0 <= i < k < |order| ==> order[i] != order[k])
    ensures plan == ImportPlan(rows, order)
  {
    order := [];
    var names := CategoryNames(rows);
    if names.Err? {
      return Plan([], Some(names.error)), order;
    }
    var categories;
    categories, order := PlanCategories(names.value);
    var items := PlanItems(rows);
    if items.failure.Some? {
      return Plan(categories + items.tasks, items.failure), order;
    }
    var tasks := categories + items.tasks;
    for i := 0 to |rows|
      invariant tasks == categories + items.tasks + VariantTasks(rows[..i])
    {
      TasksAppend(rows[..i], [rows[i]]);
      assert rows[..i + 1] == rows[..i] + [rows[i]];
      tasks := tasks + [ImportVariant(rows[i])];
    }
    assert rows[..|rows|] == rows;
    return Plan(tasks, None), order;
  }

  // ---------------------------------------------------------------------------
  // Performing the imports

  /** The `int(...)` and `float(...)` conversions the builders use. */
  datatype Parsers = Parsers(toInt: IntParser, toFloat: FloatParser)

  /** The arguments of the `create_item` call an import makes. */
  datatype Prepared = Prepared(endpoint: Endpoint, body: BodyValue, objectName: string, update: Option<string>)

  /** Build the body, object name and update id of an import, or the exception building raises. */
  function Prepare(task: Task, parsers: Parsers): Result<Prepared> {
    match task
    case ImportCategory(name) =>
      Ok(Prepared(Categories, CategoryBody(name), name, None))
    case ImportItem(row) =>
      var item :- BuildItem(row, parsers.toFloat);
      Ok(Prepared(Items, ItemBody(item), "Product: " + item.title, Some(CompositeId(item.externalId))))
    case ImportVariant(row) =>
      var variant :- BuildVariant(row, parsers.toInt, parsers.toFloat);
      var title :- Get(row, "title");
      Ok(Prepared(Variants, VariantBody(variant), "Product: " + title + ", Variant: " + variant.title,
                  Some(CompositeId(variant.sku))))
  }

  /** An item import that builds sends the body built from its row to the items endpoint. */
  lemma PreparedItem(row: Row, parsers: Parsers)
    requires Prepare(ImportItem(row), parsers).Ok?
    ensures BuildItem(row, parsers.toFloat).Ok?
    ensures Prepare(ImportItem(row), parsers).value.endpoint == Items
    ensures Prepare(ImportItem(row), parsers).value.body == ItemBody(BuildItem(row, parsers.toFloat).value)
  {
  }

  /** A variant import that builds sends the body built from its row to the variants endpoint. */
  lemma PreparedVariant(row: Row, parsers: Parsers)
    requires Prepare(ImportVariant(row), parsers).Ok?
    ensures BuildVariant(row, parsers.toInt, parsers.toFloat).Ok?
    ensures Prepare(ImportVariant(row), parsers).value.endpoint == Variants
    ensures Prepare(ImportVariant(row), parsers).value.body ==
      VariantBody(BuildVariant(row, parsers.toInt, parsers.toFloat).value)
  {
  }

  /**
   * Categories are never updated; an item or variant that already exists is
   * updated under its composite id, and its body always reshapes, so a
   * conflict never ends in a `KeyError` from `update_item`.
   */
  lemma PreparedUpdates(task: Task, parsers: Parsers)
    requires Prepare(task, parsers).Ok?
    ensures var p := Prepare(task, parsers).value;
      && (task.ImportCategory? <==> p.update.None?)
      && (task.ImportItem? ==> p.update == Some(CompositeId(BuildItem(task.row, parsers.toFloat).value.externalId)))
      && (task.ImportVariant? ==>
            p.update == Some(CompositeId(BuildVariant(task.row, parsers.toInt, parsers.toFloat).value.sku)))
      && (p.update.Some? ==> Reshaped(p.body, p.update.value).Ok?)
  {
    var p := Prepare(task, parsers).value;
    match task
    case ImportCategory(_) =>
    case ImportItem(row) =>
      ItemUpdateBody(BuildItem(row, parsers.toFloat).value, p.update.value);
    case ImportVariant(row) =>
      VariantUpdateBody(BuildVariant(row, parsers.toInt, parsers.toFloat).value, p.update.value);
  }

  /** One import: build its arguments, then call `create_item`. */
  function Step(service: Service, parsers: Parsers, sent: seq<Request>, task: Task): Attempt {
    match Prepare(task, parsers)
    case Err(e) => Attempt([], Raised(e))
    case Ok(p) => Upsert.Upsert(service, sent, p.endpoint, p.body, p.objectName, p.update)
  }

  /** The events of `prefix` followed by those of `rest`, ending as `rest` ends. */
  function Then(prefix: seq<Event>, rest: Attempt): Attempt {
    Attempt(prefix + rest.events, rest.outcome)
  }

  lemma ThenThen(a: seq<Event>, b: seq<Event>, rest: Attempt)
    ensures Then(a, Then(b, rest)) == Then(a + b, rest)
  {
    assert a + (b + rest.events) == (a + b) + rest.events;
  }

  /**
   * The imports performed in order against the service, `sent` being the
   * requests sent before them; the first exception ends the run, and when
   * none is raised the plan's pending failure is raised at the end.
   */
  function Execution(service: Service, parsers: Parsers, sent: seq<Request>, tasks: seq<Task>,
                     failure: Option<Error>): Attempt
    decreases |tasks|
  {
    if tasks == [] then
      Attempt([], if failure.Some? then Raised(failure.value) else Done)
    else
      var first := Step(service, parsers, sent, tasks[0]);
      if first.outcome.Raised? then first
      else Then(first.events, Execution(service, parsers, sent + Requests(first.events), tasks[1..], failure))
  }

  /** A run that raises nothing had no failure pending. */
  lemma {:induction false} ExecutionNothingPending(service: Service, parsers: Parsers, sent: seq<Request>,
                                                   tasks: seq<Task>, failure: Option<Error>)
    requires Execution(service, parsers, sent, tasks, failure).outcome == Done
    ensures failure.None?
    decreases |tasks|
  {
    if tasks != [] {
      var first := Step(service, parsers, sent, tasks[0]);
      ExecutionNothingPending(service, parsers, sent + Requests(first.events), tasks[1..], failure);
    }
  }

  /** A run that raises nothing built every import and sent one create request per import, in the plan's order. */
  lemma {:induction false} ExecutionCreates(service: Service, parsers: Parsers, sent: seq<Request>,
                                            tasks: seq<Task>, failure: Option<Error>)
    requires Execution(service, parsers, sent, tasks, failure).outcome == Done
    ensures var creates := Creates(Execution(service, parsers, sent, tasks, failure).events);
      && |creates| == |tasks|
      && forall i :: 0 <= i < |tasks| ==>
           && Prepare(tasks[i], parsers).Ok?
           && creates[i] == Create(Prepare(tasks[i], parsers).value.endpoint, Prepare(tasks[i], parsers).value.body)
    decreases |tasks|
  {
    if tasks != [] {
      var sent' := FirstCreate(service, parsers, sent, tasks, failure);
      ExecutionCreates(service, parsers, sent', tasks[1..], failure);
      assert forall i :: 1 <= i < |tasks| ==> tasks[1..][i - 1] == tasks[i];
    }
  }

  /** The first import of a run that raises nothing sends one create, then the run goes on from the requests it sent. */
  lemma FirstCreate(service: Service, parsers: Parsers, sent: seq<Request>, tasks: seq<Task>, failure: Option<Error>)
    returns (sent': seq<Request>)
    requires tasks != [] && Execution(service, parsers, sent, tasks, failure).outcome == Done
    ensures Prepare(tasks[0], parsers).Ok?
    ensures Execution(service, parsers, sent', tasks[1..], failure).outcome == Done
    ensures Creates(Execution(service, parsers, sent, tasks, failure).events) ==
      [Create(Prepare(tasks[0], parsers).value.endpoint, Prepare(tasks[0], parsers).value.body)] +
        Creates(Execution(service, parsers, sent', tasks[1..], failure).events)
  {
    var p := Prepare(tasks[0], parsers).value;
    var first := Step(service, parsers, sent, tasks[0]);
    sent' := sent + Requests(first.events);
    var rest := Execution(service, parsers, sent', tasks[1..], failure);
    UpsertCreatesOnce(service, sent, p.endpoint, p.body, p.objectName, p.update);
    CreatesAppend(first.events, rest.events);
  }

  /** One import on a fresh body object: `import_item`, `import_variant_from_item` or a category's loop body. */
  method Import(service: Service, parsers: Parsers, sent: seq<Request>, task: Task)
    returns (events: seq<Event>, outcome: Outcome)
    ensures Attempt(events, outcome) == Step(service, parsers, sent, task)
  {
    var prepared := Prepare(task, parsers);
    if prepared.Err? {
      return [], Raised(prepared.error);
    }
    var p := prepared.value;
    var body := new Body(p.body);
    events, outcome := CreateItem(service, sent, p.endpoint, body, p.objectName, p.update);
  }

  /** Perform the planned imports one after another, each on a fresh body object. */
  method Execute(service: Service, parsers: Parsers, tasks: seq<Task>, failure: Option<Error>)
    returns (events: seq<Event>, outcome: Outcome)
    ensures Attempt(events, outcome) == Execution(service, parsers, [], tasks, failure)
  {
    events := [];
    var i := 0;
    while i < |tasks|
      invariant 0 <= i <= |tasks|
      invariant Execution(service, parsers, [], tasks, failure) ==
        Then(events, Execution(service, parsers, Requests(events), tasks[i..], failure))
    {
      var attempt, result := Import(service, parsers, Requests(events), tasks[i]);
      ExecutionAdvance(service, parsers, tasks, failure, i, events, Attempt(attempt, result));
      if result.Raised? {
        return events + attempt, result;
      }
      events := events + attempt;
      i := i + 1;
    }
    assert tasks[i..] == [];
    outcome := if failure.Some? then Raised(failure.value) else Done;
  }

  /** One more import either ends the run with its exception or leaves the rest of the plan to perform. */
  lemma ExecutionAdvance(service: Service, parsers: Parsers, tasks: seq<Task>, failure: Option<Error>,
                         i: nat, events: seq<Event>, step: Attempt)
    requires i < |tasks|
    requires Execution(service, parsers, [], tasks, failure) ==
      Then(events, Execution(service, parsers, Requests(events), tasks[i..], failure))
    requires step == Step(service, parsers, Requests(events), tasks[i])
    ensures step.outcome.Raised? ==>
      Execution(service, parsers, [], tasks, failure) == Attempt(events + step.events, step.outcome)
    ensures step.outcome.Done? ==>
      Execution(service, parsers, [], tasks, failure) ==
        Then(events + step.events, Execution(service, parsers, Requests(events + step.events), tasks[i + 1..], failure))
  {
    assert tasks[i..][0] == tasks[i] && tasks[i..][1..] == tasks[i + 1..];
    if step.outcome.Done? {
      RequestsAppend(events, step.events);
      ThenThen(events, step.events, Execution(service, parsers, Requests(events + step.events), tasks[i + 1..], failure));
    }
  }

  /** `main` on the rows read from the file. */
  method Run(rows: seq<Row>, service: Service, parsers: Parsers)
    returns (events: seq<Event>, outcome: Outcome, ghost order: seq<string>)
    ensures CategoryNames(rows).Ok? ==>
      && |order| == |CategoryNames(rows).value|
      && (forall name :: name in order <==> name in CategoryNames(rows).value)
    ensures Attempt(events, outcome) == RunOf(rows, order, service, parsers)
  {
    var plan;
    plan, order := PlanImports(rows);
    events, outcome := Execute(service, parsers, plan.tasks, plan.failure);
  }

  /** The run of `main` on `rows`, the categories enumerated in `order`. */
  function RunOf(rows: seq<Row>, order: seq<string>, service: Service, parsers: Parsers): Attempt {
    var plan := ImportPlan(rows, order);
    Execution(service, parsers, [], plan.tasks, plan.failure)
  }

  /** A plan with nothing pending read `categories` and `external_id` in every row and imports everything. */
  lemma CompletePlan(rows: seq<Row>, order: seq<string>)
    requires ImportPlan(rows, order).failure.None?
    ensures CategoryNames(rows).Ok? && Keyed(rows)
    ensures ImportPlan(rows, order).tasks ==
      CategoryTasks(order) + ItemTasks(ParentRows(rows)) + VariantTasks(rows)
  {
    ItemPlanFails(rows);
    assert FirstUnkeyed(rows) == |rows| && rows[..|rows|] == rows;
  }

  /** Where each import sits in a complete plan. */
  lemma TaskPositions(order: seq<string>, parents: seq<Row>, rows: seq<Row>)
    ensures var tasks := CategoryTasks(order) + ItemTasks(parents) + VariantTasks(rows);
      && |tasks| == |order| + |parents| + |rows|
      && (forall i :: 0 <= i < |order| ==> tasks[i] == ImportCategory(order[i]))
      && (forall k :: 0 <= k < |parents| ==> tasks[|order| + k] == ImportItem(parents[k]))
      && (forall i :: 0 <= i < |rows| ==> tasks[|order| + |parents| + i] == ImportVariant(rows[i]))
  {
    var front := CategoryTasks(order) + ItemTasks(parents);
    assert |front| == |order| + |parents|;
    assert forall k :: 0 <= k < |parents| ==> front[|order| + k] == ImportItem(parents[k]);
  }

  /**
   * A run that raises nothing read `categories` and `external_id` in every
   * row, and sent one create per category, per group and per row.
   */
  lemma CompletedRun(rows: seq<Row>, order: seq<string>, service: Service, parsers: Parsers)
    requires RunOf(rows, order, service, parsers).outcome == Done
    ensures CategoryNames(rows).Ok? && Keyed(rows)
    ensures |Creates(RunOf(rows, order, service, parsers).events)| == |order| + |ParentRows(rows)| + |rows|
  {
    var plan := ImportPlan(rows, order);
    ExecutionNothingPending(service, parsers, [], plan.tasks, plan.failure);
    ExecutionCreates(service, parsers, [], plan.tasks, plan.failure);
    CompletePlan(rows, order);
  }

  /** A run that raises nothing first creates the categories, in the order the set yields them: the `i`-th is this one. */
  lemma CompletedRunCategory(rows: seq<Row>, order: seq<string>, service: Service, parsers: Parsers, i: nat)
    requires RunOf(rows, order, service, parsers).outcome == Done
    requires i < |order|
    ensures i < |Creates(RunOf(rows, order, service, parsers).events)|
    ensures Creates(RunOf(rows, order, service, parsers).events)[i] == Create(Categories, CategoryBody(order[i]))
  {
    var plan := ImportPlan(rows, order);
    ExecutionNothingPending(service, parsers, [], plan.tasks, plan.failure);
    ExecutionCreates(service, parsers, [], plan.tasks, plan.failure);
    CompletePlan(rows, order);
    TaskPositions(order, ParentRows(rows), rows);
  }

  /** A run that raises nothing then creates one item per group, built from the group's first row: the `k`-th is this one. */
  lemma CompletedRunItem(rows: seq<Row>, order: seq<string>, service: Service, parsers: Parsers, k: nat)
    requires RunOf(rows, order, service, parsers).outcome == Done
    requires Keyed(rows) && k < |ParentRows(rows)|
    ensures |order| + k < |Creates(RunOf(rows, order, service, parsers).events)|
    ensures BuildItem(ParentRows(rows)[k], parsers.toFloat).Ok?
    ensures Creates(RunOf(rows, order, service, parsers).events)[|order| + k] ==
      Create(Items, ItemBody(BuildItem(ParentRows(rows)[k], parsers.toFloat).value))
  {
    var plan := ImportPlan(rows, order);
    ExecutionNothingPending(service, parsers, [], plan.tasks, plan.failure);
    ExecutionCreates(service, parsers, [], plan.tasks, plan.failure);
    CompletePlan(rows, order);
    TaskPositions(order, ParentRows(rows), rows);
    PreparedItem(ParentRows(rows)[k], parsers);
  }

  /** A run that raises nothing ends by creating one variant per row, in row order: row `i`'s is this one. */
  lemma CompletedRunVariant(rows: seq<Row>, order: seq<string>, service: Service, parsers: Parsers, i: nat)
    requires RunOf(rows, order, service, parsers).outcome == Done
    requires i < |rows|
    ensures Keyed(rows)
    ensures |order| + |ParentRows(rows)| + i < |Creates(RunOf(rows, order, service, parsers).events)|
    ensures BuildVariant(rows[i], parsers.toInt, parsers.toFloat).Ok?
    ensures Creates(RunOf(rows, order, service, parsers).events)[|order| + |ParentRows(rows)| + i] ==
      Create(Variants, VariantBody(BuildVariant(rows[i], parsers.toInt, parsers.toFloat).value))
  {
    var plan := ImportPlan(rows, order);
    ExecutionNothingPending(service, parsers, [], plan.tasks, plan.failure);
    ExecutionCreates(service, parsers, [], plan.tasks, plan.failure);
    CompletePlan(rows, order);
    TaskPositions(order, ParentRows(rows), rows);
    PreparedVariant(rows[i], parsers);
  }
}
