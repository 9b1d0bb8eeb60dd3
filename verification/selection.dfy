/**
 * What `main` derives from the rows before importing: the set of category
 * names, and the parent rows that `itertools.groupby` on `external_id`
 * selects (the first row of each maximal run of adjacent rows with one key).
 */
module Selection {
  import opened Exceptions
  import opened Text
  import opened Rows
  import opened Payloads

  // ---------------------------------------------------------------------------
  // Category extraction

  /** The union of the `//`-separated names in every row's `categories` column. */
  function CategoryNames(rows: seq<Row>): Result<set<string>>
    decreases |rows|
  {
    if rows == [] then Ok({})
    else
      var categories :- Get(rows[0], "categories");
      var rest :- CategoryNames(rows[1..]);
      Ok((set name | name in Split(categories)) + rest)
  }

  /** Extraction fails, with a `KeyError`, exactly when some row has no `categories` column. */
  lemma {:induction false} CategoryNamesFails(rows: seq<Row>)
    ensures CategoryNames(rows).Ok? <==> forall i :: 0 <= i < |rows| ==> Has(rows[i], "categories")
    ensures CategoryNames(rows).Err? ==> CategoryNames(rows).error == KeyError("categories")
    decreases |rows|
  {
    if rows != [] {
      CategoryNamesFails(rows[1..]);
      assert forall i :: 1 <= i < |rows| ==> rows[1..][i - 1] == rows[i];
    }
  }

  /** A name is extracted exactly when it is a piece of some row's `categories` column. */
  lemma {:induction false} CategoryNamesMembers(rows: seq<Row>, name: string)
    requires CategoryNames(rows).Ok?
    ensures name in CategoryNames(rows).value <==>
      exists i :: 0 <= i < |rows| && Has(rows[i], "categories") &&
        name in Split(Get(rows[i], "categories").value)
    decreases |rows|
  {
    if rows != [] {
      CategoryNamesMembers(rows[1..], name);
      assert forall i :: 1 <= i < |rows| ==> rows[1..][i - 1] == rows[i];
      if name in CategoryNames(rows).value && name !in Split(Get(rows[0], "categories").value) {
        var i :| 0 <= i < |rows[1..]| && Has(rows[1..][i], "categories") &&
          name in Split(Get(rows[1..][i], "categories").value);
        assert rows[i + 1] == rows[1..][i];
      }
    }
  }

  /**
   * The extracted set depends only on which rows there are: not on their
   * order, and not on how often a row repeats.
   */
  lemma CategoryNamesOrderFree(rows: seq<Row>, others: seq<Row>)
    requires forall row :: row in rows <==> row in others
    ensures CategoryNames(rows) == CategoryNames(others)
  {
    CategoryNamesFails(rows);
    CategoryNamesFails(others);
    if CategoryNames(rows).Ok? {
      assert forall i :: 0 <= i < |others| ==> Has(others[i], "categories") by {
        forall i | 0 <= i < |others|
          ensures Has(others[i], "categories")
        {
          assert others[i] in rows;
        }
      }
      forall name
        ensures name in CategoryNames(rows).value <==> name in CategoryNames(others).value
      {
        CategoryNamesMembers(rows, name);
        CategoryNamesMembers(others, name);
        if name in CategoryNames(rows).value {
          var i :| 0 <= i < |rows| && Has(rows[i], "categories") &&
            name in Split(Get(rows[i], "categories").value);
          assert rows[i] in others;
        }
        if name in CategoryNames(others).value {
          var i :| 0 <= i < |others| && Has(others[i], "categories") &&
            name in Split(Get(others[i], "categories").value);
          assert others[i] in rows;
        }
      }
      assert CategoryNames(others).Ok?;
      assert CategoryNames(rows).value == CategoryNames(others).value;
    } else {
      assert exists i :: 0 <= i < |others| && !Has(others[i], "categories") by {
        var i :| 0 <= i < |rows| && !Has(rows[i], "categories");
        assert rows[i] in others;
      }
    }
  }

  /** Reading the rows twice extracts the same names: repeated names collapse. */
  lemma CategoryNamesIdempotent(rows: seq<Row>)
    ensures CategoryNames(rows + rows) == CategoryNames(rows)
  {
    CategoryNamesOrderFree(rows + rows, rows);
  }

  /** Every category an item refers to is among the extracted names. */
  lemma ItemCategoriesExtracted(rows: seq<Row>, i: nat, parseFloat: FloatParser)
    requires i < |rows| && CategoryNames(rows).Ok?
    requires BuildItem(rows[i], parseFloat).Ok?
    ensures forall ref :: ref in BuildItem(rows[i], parseFloat).value.categories ==>
      ReferencedName(ref) in CategoryNames(rows).value
  {
    var categories := Get(rows[i], "categories").value;
    var refs := BuildItem(rows[i], parseFloat).value.categories;
    CategoryRefsRoundTrip(categories);
    forall ref | ref in refs
      ensures ReferencedName(ref) in CategoryNames(rows).value
    {
      var k :| 0 <= k < |refs| && refs[k] == ref;
      CategoryNamesMembers(rows, ReferencedName(ref));
    }
  }

  // ---------------------------------------------------------------------------
  // Parent selection: groupby over adjacent keys

  /** Position `i` begins a maximal run of equal adjacent keys. */
  predicate StartsRun(keys: seq<string>, i: nat)
    requires i < |keys|
  {
    i == 0 || keys[i] != keys[i - 1]
  }

  /** The positions where a run begins, ascending. */
  function RunStarts(keys: seq<string>): (starts: seq<nat>)
    ensures forall k :: 0 <= k < |starts| ==> starts[k] < |keys|
    ensures forall k, l :: 0 <= k < l < |starts| ==> starts[k] < starts[l]
    ensures |keys| > 0 ==> |starts| > 0 && starts[0] == 0
    decreases |keys|
  {
    if keys == [] then []
    else
      var n := |keys| - 1;
      RunStarts(keys[..n]) + (if StartsRun(keys, n) then [n] else [])
  }

  /** The runs are exactly the maximal ones: a position is a start iff it begins a run. */
  lemma {:induction false} RunStartsExact(keys: seq<string>)
    ensures forall i :: 0 <= i < |keys| ==> (i in RunStarts(keys) <==> StartsRun(keys, i))
    decreases |keys|
  {
    if keys != [] {
      var n := |keys| - 1;
      RunStartsExact(keys[..n]);
      assert forall i :: 0 <= i < n ==> StartsRun(keys[..n], i) == StartsRun(keys, i);
    }
  }

  /** Every position after the last start carries the last start's key. */
  lemma {:induction false} LastRun(keys: seq<string>)
    requires keys != []
    ensures var starts := RunStarts(keys);
      forall i :: starts[|starts| - 1] <= i < |keys| ==> keys[i] == keys[starts[|starts| - 1]]
    decreases |keys|
  {
    var n := |keys| - 1;
    if n > 0 && !StartsRun(keys, n) {
      LastRun(keys[..n]);
    }
  }

  /** Two consecutive starts have different keys. */
  lemma {:induction false} RunStartsNeighboursDiffer(keys: seq<string>)
    ensures forall k :: 0 <= k < |RunStarts(keys)| - 1 ==>
      keys[RunStarts(keys)[k]] != keys[RunStarts(keys)[k + 1]]
    decreases |keys|
  {
    if keys != [] {
      var n := |keys| - 1;
      var front := RunStarts(keys[..n]);
      RunStartsNeighboursDiffer(keys[..n]);
      var starts := RunStarts(keys);
      assert forall j :: 0 <= j < n ==> keys[..n][j] == keys[j];
      forall k | 0 <= k < |starts| - 1
        ensures keys[starts[k]] != keys[starts[k + 1]]
      {
        assert starts[k] == front[k];
        if k + 1 < |front| {
          assert starts[k + 1] == front[k + 1];
        } else {
          assert starts[k + 1] == n && StartsRun(keys, n) && k == |front| - 1;
          LastRun(keys[..n]);
          assert front[k] <= n - 1;
          assert keys[..n][n - 1] == keys[..n][front[k]];
        }
      }
    }
  }

  /** Every key occurs at some start, one at or before its position. */
  lemma {:induction false} RunStartsCover(keys: seq<string>, i: nat)
    requires i < |keys|
    ensures exists k :: 0 <= k < |RunStarts(keys)| && RunStarts(keys)[k] <= i &&
                        keys[RunStarts(keys)[k]] == keys[i]
    decreases |keys|
  {
    var n := |keys| - 1;
    var starts := RunStarts(keys);
    if i < n {
      RunStartsCover(keys[..n], i);
      var k :| 0 <= k < |RunStarts(keys[..n])| && RunStarts(keys[..n])[k] <= i &&
        keys[..n][RunStarts(keys[..n])[k]] == keys[..n][i];
      assert starts[k] == RunStarts(keys[..n])[k];
    } else if StartsRun(keys, n) {
      assert starts[|starts| - 1] == n;
    } else {
      LastRun(keys);
      assert keys[starts[|starts| - 1]] == keys[i];
    }
  }

  /** Every row has an `external_id` column. */
  predicate Keyed(rows: seq<Row>) {
    forall i :: 0 <= i < |rows| ==> Has(rows[i], "external_id")
  }

  function ExternalIds(rows: seq<Row>): (keys: seq<string>)
    requires Keyed(rows)
  {
    seq(|rows|, i requires 0 <= i < |rows| => Get(rows[i], "external_id").value)
  }

  /** `[list(group)[0] for _, group in groupby(rows, key=external_id)]`. */
  function ParentRows(rows: seq<Row>): seq<Row>
    requires Keyed(rows)
  {
    var starts := RunStarts(ExternalIds(rows));
    seq(|starts|, k requires 0 <= k < |starts| => rows[starts[k]])
  }

  /** The parents are exactly the rows that begin a run of equal keys, in input order. */
  lemma ParentRowsAreRunStarts(rows: seq<Row>)
    requires Keyed(rows)
    ensures |ParentRows(rows)| == |RunStarts(ExternalIds(rows))|
    ensures forall k :: 0 <= k < |ParentRows(rows)| ==>
      ParentRows(rows)[k] == rows[RunStarts(ExternalIds(rows))[k]]
    ensures forall k, l :: 0 <= k < l < |ParentRows(rows)| ==>
      RunStarts(ExternalIds(rows))[k] < RunStarts(ExternalIds(rows))[l]
    ensures forall i :: 0 <= i < |rows| ==>
      (i in RunStarts(ExternalIds(rows)) <==> StartsRun(ExternalIds(rows), i))
  {
    RunStartsExact(ExternalIds(rows));
  }

  /** Consecutive parents have different external ids. */
  lemma ParentRowsNeighboursDiffer(rows: seq<Row>)
    requires Keyed(rows)
    ensures forall k :: 0 <= k < |ParentRows(rows)| - 1 ==>
      Get(ParentRows(rows)[k], "external_id").value != Get(ParentRows(rows)[k + 1], "external_id").value
  {
    var keys := ExternalIds(rows);
    RunStartsNeighboursDiffer(keys);
    var parents := ParentRows(rows);
    var starts := RunStarts(keys);
    forall k | 0 <= k < |parents| - 1
      ensures Get(parents[k], "external_id").value != Get(parents[k + 1], "external_id").value
    {
      assert keys[starts[k]] != keys[starts[k + 1]];
    }
  }

  /** Every row's external id is the external id of some parent. */
  lemma ParentRowsCover(rows: seq<Row>, i: nat)
    requires Keyed(rows) && i < |rows|
    ensures exists k :: 0 <= k < |ParentRows(rows)| &&
                        Get(ParentRows(rows)[k], "external_id").value == Get(rows[i], "external_id").value
  {
    var keys := ExternalIds(rows);
    var starts := RunStarts(keys);
    RunStartsCover(keys, i);
    var k :| 0 <= k < |starts| && starts[k] <= i && keys[starts[k]] == keys[i];
    assert ParentRows(rows)[k] == rows[starts[k]];
  }

  /** Each variant refers, by its item id, to the update id of a parent item. */
  lemma VariantsReferenceParents(rows: seq<Row>, i: nat, parseInt: IntParser, parseFloat: FloatParser)
    requires Keyed(rows) && i < |rows|
    requires BuildVariant(rows[i], parseInt, parseFloat).Ok?
    ensures exists k :: 0 <= k < |ParentRows(rows)| &&
                        BuildVariant(rows[i], parseInt, parseFloat).value.itemId ==
                          CompositeId(Get(ParentRows(rows)[k], "external_id").value)
  {
    ParentRowsCover(rows, i);
  }
}
