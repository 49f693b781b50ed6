/** The value handler of the `--excluded-tables` option. Each value given
    after the flag is passed to the handler together with the list
    collected so far: a value holding a comma is the deprecated
    comma-separated form, which replaces the list by its pieces and warns;
    any other value is appended. */
module Command {
  import opened Wrappers
  import opened Text

  /** `handleCommaSeparatedExcludedTableList`: the new list of excluded
      tables after one value. An absent previous list counts as empty. */
  function HandleExcludedTable(excludedTable: string, previous: Option<seq<string>>): (r: seq<string>)
    ensures |r| >= 1
  {
    if ',' in excludedTable then Split(excludedTable, ',')
    else previous.GetOr([]) + [excludedTable]
  }

  /** The tables in the warning's suggested command: the comma-separated
      pieces, separated by spaces. */
  function SuggestedTables(excludedTable: string): string
  {
    Join(Split(excludedTable, ','), " ")
  }

  /** The deprecation warning printed for a comma-separated value; there is
      none for any other value. */
  function DeprecationWarning(excludedTable: string): (w: Option<string>)
    ensures w.Some? <==> ',' in excludedTable
  {
    if ',' in excludedTable then
      Some("warn: '--excluded-tables' flag with comma-separated list is deprecated, please use space-separated list instead ('--excluded-tables "
           + SuggestedTables(excludedTable) + "')")
    else None
  }

  /** The list the handler leaves after the values given after the flag, in
      order; `None` when no value was given. The first call receives no
      previous list. */
  function ExcludedTables(values: seq<string>): (r: Option<seq<string>>)
    ensures r.Some? <==> |values| > 0
  {
    if |values| == 0 then None
    else
      var last := |values| - 1;
      Some(HandleExcludedTable(values[last], ExcludedTables(values[..last])))
  }

  // ---------------------------------------------------------------------
  // One value

  /** A comma-separated value: the result is its pieces, two or more, none
      holding a comma, which joined by commas give the value back; the
      previous list is discarded. */
  lemma CommaSeparated(excludedTable: string, previous: Option<seq<string>>)
    requires ',' in excludedTable
    ensures var r := HandleExcludedTable(excludedTable, previous);
      |r| >= 2 && NoneContains(r, ',') && Join(r, ",") == excludedTable
      && r == HandleExcludedTable(excludedTable, None)
  {
    SplitSeveral(excludedTable, ',');
    SplitPiecesFree(excludedTable, ',');
    JoinSplit(excludedTable, ',');
  }

  /** Any other value is appended to the previous list, which is kept as it
      was; without a previous list the result is the value alone. */
  lemma Appended(excludedTable: string, previous: Option<seq<string>>)
    requires ',' !in excludedTable
    ensures var r := HandleExcludedTable(excludedTable, previous);
      |r| == |previous.GetOr([])| + 1
      && r[..|r| - 1] == previous.GetOr([]) && r[|r| - 1] == excludedTable
    ensures previous == None ==> HandleExcludedTable(excludedTable, previous) == [excludedTable]
  {
    var r := HandleExcludedTable(excludedTable, previous);
    assert r[..|r| - 1] == previous.GetOr([]);
  }

  /** The warning suggests a space-separated list that names the same tables
      as the comma-separated value, when no table name holds a space. */
  lemma SuggestionNamesSameTables(excludedTable: string)
    requires ',' in excludedTable && ' ' !in excludedTable
    ensures Split(SuggestedTables(excludedTable), ' ') == HandleExcludedTable(excludedTable, None)
  {
    var pieces := Split(excludedTable, ',');
    SplitKeepsFree(excludedTable, ',', ' ');
    assert " " == [' '];
    SplitJoin(pieces, ' ');
  }

  // ---------------------------------------------------------------------
  // All values given after the flag

  /** Values without commas are collected as given. */
  lemma {:induction false} PlainValues(values: seq<string>)
    requires |values| > 0 && NoneContains(values, ',')
    ensures ExcludedTables(values) == Some(values)
  {
    var last := |values| - 1;
    if last > 0 {
      PlainValues(values[..last]);
    }
    assert values == values[..last] + [values[last]];
  }

  /** The last comma-separated value wins: the earlier values are dropped,
      its pieces come first and the plain values after it follow in order. */
  lemma {:induction false} LastCommaListWins(values: seq<string>, i: nat)
    requires i < |values| && ',' in values[i]
    requires NoneContains(values[i + 1..], ',')
    ensures ExcludedTables(values) == Some(Split(values[i], ',') + values[i + 1..])
    decreases |values|
  {
    var last := |values| - 1;
    if last == i {
      var pieces := Split(values[i], ',');
      assert ExcludedTables(values) == Some(HandleExcludedTable(values[i], ExcludedTables(values[..last])));
      assert HandleExcludedTable(values[i], ExcludedTables(values[..last])) == pieces;
      assert values[i + 1..] == [];
      assert pieces + values[i + 1..] == pieces;
    } else {
      assert values[..last][i + 1..] == values[i + 1..last];
      assert values[i + 1..] == values[i + 1..last] + [values[last]];
      assert ',' !in values[last] by {
        assert values[last] == values[i + 1..][last - i - 1];
      }
      LastCommaListWins(values[..last], i);
      var pieces := Split(values[i], ',');
      assert ExcludedTables(values) == Some(HandleExcludedTable(values[last], Some(pieces + values[i + 1..last])));
      assert (pieces + values[i + 1..last]) + [values[last]] == pieces + values[i + 1..];
    }
  }

  /** A value holding two comma-free names separated by one comma gives
      those two tables, as in the documented case `table1,table2`. */
  lemma TwoCommaSeparated(first: string, second: string)
    requires ',' !in first && ',' !in second
    ensures ExcludedTables([first + "," + second]) == Some([first, second])
  {
    var value := first + "," + second;
    assert value == first + [','] + second;
    SplitAround(first, ',', second);
    SplitFree(first, ',');
    SplitFree(second, ',');
    assert value[|first|] == ',';
    var values: seq<string> := [value];
    assert values[..0] == [];
    assert ExcludedTables(values) == Some(HandleExcludedTable(value, None));
    assert ',' in value;
    assert HandleExcludedTable(value, None) == Split(value, ',');
    assert Split(value, ',') == [first] + [second];
    assert [first] + [second] == [first, second];
  }

  /** The documented case. */
  lemma CommaSeparatedExample()
    ensures ExcludedTables(["table1,table2"]) == Some(["table1", "table2"])
  {
    TwoCommaSeparated("table1", "table2");
    assert "table1" + "," + "table2" == "table1,table2";
  }
}
