/**
 * The database console of the `frontend` application
 * (`frontend/src/app/app.component.ts`): it builds the data endpoint's query,
 * tabulates fetched rows, previews them, renders a schema description, shows
 * transfer progress and numbered toasts, and remembers the backend base URL.
 *
 * A fetched row is a list of (key, value) pairs in key order, the value
 * written as `String(value)` would write it and `None` for null or undefined.
 * HTTP requests are recorded by their path; `localStorage` is the field
 * `storedBaseUrl`; `URLSearchParams` percent-encoding is the function
 * parameter `encode`.
 */
module DbConsole {
  import opened Common

  type Row = seq<(string, Option<string>)>

  const NoDataMessage: string := "Keine Daten vorhanden."
  const NoColumnsMessage: string := "Keine Spalten gefunden."
  const NoSchemaMessage: string := "Kein Schema gefunden."
  const RelocateRefusedMessage: string := "Quelle und Ziel müssen unterschiedlich sein"
  const BaseUrlSavedMessage: string := "Base URL gespeichert"

  // ---------------------------------------------------------------------
  // The data endpoint

  /** The query pairs of `endpoints.data`: a non-empty filter first, then a non-zero limit. */
  function QueryParams(filter: Option<string>, limit: Option<int>): seq<(string, string)>
  {
    (if filter.Some? && filter.value != "" then [("filter", filter.value)] else [])
    + (if limit.Some? && limit.value != 0 then [("limit", IntToString(limit.value))] else [])
  }

  /** `URLSearchParams.toString()`: `name=value` pairs, values encoded, joined by `&`. */
  function QueryString(params: seq<(string, string)>, encode: string -> string): string
  {
    Join(seq(|params|, i requires 0 <= i < |params| => params[i].0 + "=" + encode(params[i].1)), "&")
  }

  /** `endpoints.data(db, { filter, limit })`: the query, when there is one, follows a `?`. */
  function DataUrl(db: string, filter: Option<string>, limit: Option<int>, encode: string -> string): (url: string)
    ensures "/api/db/" + db + "/data" <= url
  {
    var suffix := QueryString(QueryParams(filter, limit), encode);
    "/api/db/" + db + "/data" + (if suffix != "" then "?" + suffix else "")
  }

  /**
   * The four shapes of the data URL: no query at all without a (non-empty)
   * filter and a (non-zero) limit, and the filter always ahead of the limit.
   */
  lemma {:induction false} DataUrlShapes(db: string, filter: Option<string>, limit: Option<int>, encode: string -> string)
    ensures var path := "/api/db/" + db + "/data";
      var hasFilter := filter.Some? && filter.value != "";
      var hasLimit := limit.Some? && limit.value != 0;
      && (!hasFilter && !hasLimit ==> DataUrl(db, filter, limit, encode) == path)
      && (hasFilter && !hasLimit ==> DataUrl(db, filter, limit, encode) == path + "?filter=" + encode(filter.value))
      && (!hasFilter && hasLimit ==>
            DataUrl(db, filter, limit, encode) == path + "?limit=" + encode(IntToString(limit.value)))
      && (hasFilter && hasLimit ==>
            DataUrl(db, filter, limit, encode)
            == path + "?filter=" + encode(filter.value) + "&limit=" + encode(IntToString(limit.value)))
  {
    var params := QueryParams(filter, limit);
    var parts := seq(|params|, i requires 0 <= i < |params| => params[i].0 + "=" + encode(params[i].1));
    if |params| == 1 {
      assert QueryString(params, encode) == parts[0];
    } else if |params| == 2 {
      assert parts[..1] == [parts[0]];
      assert QueryString(params, encode) == parts[0] + "&" + parts[1];
    }
  }

  /** `endpoints.relocate`: the two database ids go into the query unencoded. */
  function RelocatePath(source: string, target: string): string
  {
    "/api/admin/relocate?from=" + source + "&to=" + target
  }

  // ---------------------------------------------------------------------
  // Columns: `Array.from(new Set(rows.flatMap(row => Object.keys(row))))`

  function RowKeys(row: Row): (keys: seq<string>)
    ensures |keys| == |row|
    ensures forall i :: 0 <= i < |row| ==> keys[i] == row[i].0
  {
    seq(|row|, i requires 0 <= i < |row| => row[i].0)
  }

  /** `rows.flatMap(row => Object.keys(row))`. */
  function AllKeys(rows: seq<Row>): seq<string>
  {
    if rows == [] then [] else AllKeys(rows[..|rows| - 1]) + RowKeys(rows[|rows| - 1])
  }

  /** `Array.from(new Set(keys))`: a `Set` keeps the order in which values were first inserted. */
  function Distinct(keys: seq<string>): seq<string>
  {
    if keys == [] then []
    else
      var seen := Distinct(keys[..|keys| - 1]);
      if keys[|keys| - 1] in seen then seen else seen + [keys[|keys| - 1]]
  }

  /** The position where `x` first occurs. */
  function FirstIndex(s: seq<string>, x: string): (r: nat)
    requires x in s
    ensures r < |s| && s[r] == x && x !in s[..r]
  {
    if s[0] == x then 0
    else
      var r := 1 + FirstIndex(s[1..], x);
      assert s[..r] == [s[0]] + s[1..][..r - 1];
      r
  }

  lemma {:induction false} FirstIndexInPrefix(p: seq<string>, k: string, x: string)
    requires x in p
    ensures FirstIndex(p + [k], x) == FirstIndex(p, x)
  {
    var i := FirstIndex(p, x);
    var j := FirstIndex(p + [k], x);
    assert (p + [k])[..i] == p[..i];
    assert (p + [k])[i] == x;
  }

  lemma {:induction false} FirstIndexOfNew(p: seq<string>, k: string)
    requires k !in p
    ensures FirstIndex(p + [k], k) == |p|
  {
    assert (p + [k])[|p|] == k;
  }

  /**
   * The distinct keys are exactly the keys, each once, ordered by where they
   * first occur.
   */
  lemma {:induction false} DistinctProperties(keys: seq<string>)
    ensures forall x :: x in Distinct(keys) <==> x in keys
    ensures NoDuplicates(Distinct(keys))
    ensures forall i, j :: 0 <= i < j < |Distinct(keys)| ==>
      FirstIndex(keys, Distinct(keys)[i]) < FirstIndex(keys, Distinct(keys)[j])
    decreases |keys|
  {
    if keys != [] {
      var p := keys[..|keys| - 1];
      var k := keys[|keys| - 1];
      assert keys == p + [k];
      DistinctProperties(p);
      var seen := Distinct(p);
      var d := Distinct(keys);
      forall x | x in p
        ensures FirstIndex(keys, x) == FirstIndex(p, x)
      {
        FirstIndexInPrefix(p, k, x);
      }
      if k !in seen {
        assert d == seen + [k];
        FirstIndexOfNew(p, k);
        forall i, j | 0 <= i < j < |d|
          ensures FirstIndex(keys, d[i]) < FirstIndex(keys, d[j])
        {
          assert d[i] in seen;
          if j < |seen| {
            assert d[i] == seen[i] && d[j] == seen[j];
          }
        }
      }
    }
  }

  /** A key is among all keys exactly when some row has it. */
  lemma {:induction false} AllKeysMembership(rows: seq<Row>, x: string)
    ensures x in AllKeys(rows) <==> exists i :: 0 <= i < |rows| && x in RowKeys(rows[i])
    decreases |rows|
  {
    if rows != [] {
      var init := rows[..|rows| - 1];
      var last := rows[|rows| - 1];
      AllKeysMembership(init, x);
      assert AllKeys(rows) == AllKeys(init) + RowKeys(last);
      assert forall i :: 0 <= i < |init| ==> init[i] == rows[i];
      if x in AllKeys(init) {
        var i :| 0 <= i < |init| && x in RowKeys(init[i]);
        assert x in RowKeys(rows[i]);
      }
      if exists i :: 0 <= i < |rows| && x in RowKeys(rows[i]) {
        var i :| 0 <= i < |rows| && x in RowKeys(rows[i]);
        if i < |init| {
          assert x in RowKeys(init[i]);
        }
      }
    }
  }

  function Columns(rows: seq<Row>): seq<string>
  {
    Distinct(AllKeys(rows))
  }

  /**
   * The table's columns: every key of every row, each once, in the order of
   * first appearance; there are none exactly when no row has a key.
   */
  lemma {:induction false} ColumnsProperties(rows: seq<Row>)
    ensures forall c :: c in Columns(rows) <==> exists i :: 0 <= i < |rows| && c in RowKeys(rows[i])
    ensures NoDuplicates(Columns(rows))
    ensures forall c :: c in Columns(rows) <==> c in AllKeys(rows)
    ensures forall i, j :: 0 <= i < j < |Columns(rows)| ==>
      FirstIndex(AllKeys(rows), Columns(rows)[i]) < FirstIndex(AllKeys(rows), Columns(rows)[j])
    ensures Columns(rows) == [] <==> forall i :: 0 <= i < |rows| ==> rows[i] == []
  {
    DistinctProperties(AllKeys(rows));
    forall c
      ensures c in Columns(rows) <==> exists i :: 0 <= i < |rows| && c in RowKeys(rows[i])
    {
      AllKeysMembership(rows, c);
    }
    if exists i :: 0 <= i < |rows| && rows[i] != [] {
      var i :| 0 <= i < |rows| && rows[i] != [];
      var c := rows[i][0].0;
      assert c in RowKeys(rows[i]);
      assert c in Columns(rows);
    }
    if Columns(rows) != [] {
      var c := Columns(rows)[0];
      assert c in Columns(rows);
      var i :| 0 <= i < |rows| && c in RowKeys(rows[i]);
      assert rows[i] != [];
    }
  }

  /** The text of the table statistics. */
  function StatsText(rowCount: nat, columnCount: nat): string
  {
    NatToString(rowCount) + " Zeilen · " + NatToString(columnCount) + " Spalten"
  }

  // ---------------------------------------------------------------------
  // Preview

  /**
   * `String(row[column] ?? '')`: the value of the row's first property with
   * that name, empty text for a null value or a missing property.
   */
  function CellText(row: Row, column: string): (text: string)
    ensures column !in RowKeys(row) ==> text == ""
    ensures forall i :: 0 <= i < |row| && row[i].0 == column && (forall j :: 0 <= j < i ==> row[j].0 != column) ==>
      text == OrElse(row[i].1, "")
  {
    if row == [] then ""
    else if row[0].0 == column then (if row[0].1.Some? then row[0].1.value else "")
    else
      assert RowKeys(row[1..]) == RowKeys(row)[1..];
      var rest := CellText(row[1..], column);
      assert forall i :: 1 <= i < |row| ==> row[i] == row[1..][i - 1];
      rest
  }

  /** One preview line: the row's value for every column, in column order. */
  function RowCells(row: Row, columns: seq<string>): (cells: seq<string>)
    ensures |cells| == |columns|
    ensures forall k :: 0 <= k < |columns| ==> cells[k] == CellText(row, columns[k])
  {
    seq(|columns|, k requires 0 <= k < |columns| => CellText(row, columns[k]))
  }

  /** The header and one line for each of at most the first five rows. */
  function PreviewLines(rows: seq<Row>, columns: seq<string>): (lines: seq<string>)
    ensures |lines| == 1 + (if |rows| < 5 then |rows| else 5)
    ensures lines[0] == Join(columns, " | ")
    ensures forall i :: 1 <= i < |lines| ==> lines[i] == Join(RowCells(rows[i - 1], columns), " | ")
  {
    var shown := if |rows| < 5 then |rows| else 5;
    [Join(columns, " | ")] + seq(shown, i requires 0 <= i < shown => Join(RowCells(rows[i], columns), " | "))
  }

  /** `buildPreview`. */
  function BuildPreview(rows: seq<Row>): (text: string)
  {
    if rows == [] then NoDataMessage
    else
      var columns := Columns(rows);
      if columns == [] then NoColumnsMessage else Join(PreviewLines(rows, columns), "\n")
  }

  /**
   * The preview's three cases: no rows, rows without any key, and otherwise a
   * header over the first rows only; rows after the fifth matter only through
   * the columns they contribute to the header.
   */
  lemma {:induction false} PreviewCases(rows: seq<Row>)
    ensures rows == [] ==> BuildPreview(rows) == NoDataMessage
    ensures rows != [] && (forall i :: 0 <= i < |rows| ==> rows[i] == []) ==> BuildPreview(rows) == NoColumnsMessage
    ensures rows != [] && Columns(rows) != [] ==>
      BuildPreview(rows) == Join(PreviewLines(rows, Columns(rows)), "\n")
    ensures |rows| > 5 && Columns(rows) == Columns(rows[..5]) ==> BuildPreview(rows) == BuildPreview(rows[..5])
  {
    ColumnsProperties(rows);
    if |rows| > 5 && Columns(rows) == Columns(rows[..5]) {
      var first := rows[..5];
      if Columns(rows) != [] {
        var a := PreviewLines(rows, Columns(rows));
        var b := PreviewLines(first, Columns(rows));
        assert |a| == |b|;
        forall i | 0 <= i < |a|
          ensures a[i] == b[i]
        {
          if i > 0 {
            assert first[i - 1] == rows[i - 1];
          }
        }
        assert a == b;
      }
      assert first != [];
    }
  }

  // ---------------------------------------------------------------------
  // Transfer progress

  datatype TransferState = TransferState(loaded: real, total: real, inFlight: bool)

  /** The rounded share of the transfer done, or 0 when the total is unknown. */
  function RawPercent(state: TransferState): int
  {
    if state.total > 0.0 then HalfUp(state.loaded / state.total * 100.0) else 0
  }

  /** The bar's percentage while a transfer is in flight. */
  function ProgressPercent(state: TransferState): (p: int)
    ensures 5 <= p <= 100
    ensures 5 <= RawPercent(state) <= 100 ==> p == RawPercent(state)
    ensures RawPercent(state) < 5 ==> p == 5
    ensures RawPercent(state) > 100 ==> p == 100
  {
    var percent := RawPercent(state);
    var least := if state.loaded > 0.0 || percent > 0 then (if percent > 5 then percent else 5) else 5;
    if least < 100 then least else 100
  }

  /** `computeProgressWidth`. */
  function ProgressWidth(state: TransferState): (width: string)
    ensures !state.inFlight ==> width == "0%"
    ensures state.inFlight ==> width == NatToString(ProgressPercent(state)) + "%"
  {
    if !state.inFlight then "0%" else IntToString(ProgressPercent(state)) + "%"
  }

  lemma {:induction false} NatToStringOfSmall(n: nat)
    requires n < 10
    ensures NatToString(n) == [DigitChar(n)]
  {
  }

  /** A transfer in flight always shows a visible bar: its width is never `0%`. */
  lemma {:induction false} InFlightBarIsVisible(state: TransferState)
    requires state.inFlight
    ensures ProgressWidth(state) != "0%"
  {
    var p := ProgressPercent(state);
    var digits := NatToString(p);
    if p < 10 {
      NatToStringOfSmall(p);
      assert digits[0] == DigitChar(p) != '0';
    } else {
      assert |NatToString(p / 10)| >= 1;
      assert |digits| >= 2;
    }
    assert ProgressWidth(state)[..|digits|] == digits;
  }

  // ---------------------------------------------------------------------
  // Base URL

  /** The URL `saveBaseUrl` keeps: the trimmed input, or the page origin when that is empty. */
  function SavedBaseUrl(input: string, defaultOrigin: string): (url: string)
    ensures Trim(input) != [] ==> url == Trim(input)
    ensures Trim(input) == [] ==> url == defaultOrigin
  {
    var trimmed := Trim(input);
    if |trimmed| > 0 then trimmed else defaultOrigin
  }

  /** `loadBaseUrl`: the trimmed stored value, or the page origin when none is stored or it is blank. */
  function LoadedBaseUrl(stored: Option<string>, defaultOrigin: string): (url: string)
    ensures stored.Some? && Trim(stored.value) != [] ==> url == Trim(stored.value)
    ensures stored.None? || Trim(stored.value) == [] ==> url == defaultOrigin
  {
    if stored.Some? && |Trim(stored.value)| > 0 then Trim(stored.value) else defaultOrigin
  }

  /** A saved base URL is the one loaded next time, provided the page origin has no surrounding whitespace. */
  lemma {:induction false} SaveThenLoad(input: string, defaultOrigin: string)
    requires Trim(defaultOrigin) == defaultOrigin
    ensures LoadedBaseUrl(Some(SavedBaseUrl(input, defaultOrigin)), defaultOrigin) == SavedBaseUrl(input, defaultOrigin)
  {
    TrimIdempotent(input);
  }

  // ---------------------------------------------------------------------
  // Toasts

  datatype ToastKind = OkToast | ErrorToast

  datatype Toast = Toast(id: int, message: string, kind: ToastKind)

  predicate IdsIncreasing(toasts: seq<Toast>)
  {
    forall i, j :: 0 <= i < j < |toasts| ==> toasts[i].id < toasts[j].id
  }

  /** The `setTimeout` callback's filter: every toast except those with the id. */
  function WithoutToast(toasts: seq<Toast>, id: int): (r: seq<Toast>)
    ensures forall t :: t in r <==> t in toasts && t.id != id
  {
    if toasts == [] then []
    else
      var kept := WithoutToast(toasts[..|toasts| - 1], id);
      var last := toasts[|toasts| - 1];
      assert toasts == toasts[..|toasts| - 1] + [last];
      if last.id != id then kept + [last] else kept
  }

  /** Removing a toast keeps the others in increasing id order. */
  lemma {:induction false} WithoutToastKeepsOrder(toasts: seq<Toast>, id: int)
    requires IdsIncreasing(toasts)
    ensures IdsIncreasing(WithoutToast(toasts, id))
    decreases |toasts|
  {
    if toasts != [] {
      var init := toasts[..|toasts| - 1];
      var last := toasts[|toasts| - 1];
      WithoutToastKeepsOrder(init, id);
      var kept := WithoutToast(init, id);
      if last.id != id {
        var r := kept + [last];
        forall i, j | 0 <= i < j < |r|
          ensures r[i].id < r[j].id
        {
          if j == |kept| {
            assert r[i] in init;
            var k :| 0 <= k < |init| && init[k] == r[i];
            assert toasts[k] == r[i];
          } else {
            assert r[i] == kept[i] && r[j] == kept[j];
          }
        }
      }
    }
  }

  // ---------------------------------------------------------------------
  // Schema

  /**
   * A column description. `notnull` and `pk` hold what `Number(...)` makes
   * of the property (`None` for NaN); the other properties are `None` when
   * absent or null.
   */
  datatype SchemaColumn = SchemaColumn(
    name: Option<string>,
    columnType: Option<string>,
    notnull: Option<real>,
    isNullable: Option<string>,
    pk: Option<real>,
    defaultValue: Option<string>)

  /** A table description; `columns` is `None` when the property is not an array. */
  datatype SchemaEntry = SchemaEntry(
    table: Option<string>,
    name: Option<string>,
    entryType: Option<string>,
    columns: Option<seq<SchemaColumn>>,
    createSql: Option<string>,
    sql: Option<string>)

  datatype SchemaInput = NotAnArray | SchemaArray(entries: seq<SchemaEntry>)

  /** A JavaScript truthiness test on an optional string. */
  predicate Truthy(v: Option<string>)
  {
    v.Some? && v.value != ""
  }

  /** `a ?? b`. */
  function OrElse(a: Option<string>, b: string): string
  {
    if a.Some? then a.value else b
  }

  predicate IsNotNull(column: SchemaColumn)
  {
    column.notnull == Some(1.0) || column.isNullable == Some("NO")
  }

  predicate IsPrimaryKey(column: SchemaColumn)
  {
    column.pk == Some(1.0)
  }

  /** The start of a column line: the name, or `(ohne Name)`, and the type when there is one. */
  function ColumnHead(column: SchemaColumn): string
  {
    "  - " + OrElse(column.name, "(ohne Name)")
    + (if Truthy(column.columnType) then " " + column.columnType.value else "")
  }

  /** A column line: name and type, then the not-null, key and default parts. */
  function ColumnLine(column: SchemaColumn): (line: string)
    ensures "  - " + OrElse(column.name, "(ohne Name)") <= line
  {
    var nameLine := "  - " + OrElse(column.name, "(ohne Name)");
    var head := ColumnHead(column);
    var flags := (if IsNotNull(column) then " NOT NULL" else "")
      + (if IsPrimaryKey(column) then " PRIMARY KEY" else "")
      + (if Truthy(column.defaultValue) then " DEFAULT " + column.defaultValue.value else "");
    PrefixOfConcat(nameLine, head[|nameLine|..]);
    PrefixOfConcat(head, flags);
    head + flags
  }

  /**
   * The markers of a column line: after the name and type comes ` NOT NULL`
   * exactly for a not-null column, then ` PRIMARY KEY` exactly for a key
   * column, then ` DEFAULT` and the value exactly when a default is given.
   */
  lemma ColumnLineMarkers(column: SchemaColumn)
    ensures ColumnHead(column) <= ColumnLine(column)
    ensures IsNotNull(column) <==> ColumnHead(column) + " NOT NULL" <= ColumnLine(column)
    ensures var marked := ColumnHead(column) + (if IsNotNull(column) then " NOT NULL" else "");
      IsPrimaryKey(column) <==> marked + " PRIMARY KEY" <= ColumnLine(column)
    ensures var flagged := ColumnHead(column) + (if IsNotNull(column) then " NOT NULL" else "")
                           + (if IsPrimaryKey(column) then " PRIMARY KEY" else "");
      && (Truthy(column.defaultValue) <==> flagged + " DEFAULT " <= ColumnLine(column))
      && (!Truthy(column.defaultValue) ==> ColumnLine(column) == flagged)
  {
    var line := ColumnLine(column);
    PrefixOfConcat(ColumnHead(column), line[|ColumnHead(column)|..]);
    ColumnLineNotNull(column);
    ColumnLinePrimaryKey(column);
    ColumnLineDefault(column);
  }

  /** ` NOT NULL` follows the head exactly for a not-null column. */
  lemma ColumnLineNotNull(column: SchemaColumn)
    ensures IsNotNull(column) <==> ColumnHead(column) + " NOT NULL" <= ColumnLine(column)
  {
    var head := ColumnHead(column);
    var rest := (if IsPrimaryKey(column) then " PRIMARY KEY" else "")
      + (if Truthy(column.defaultValue) then " DEFAULT " + column.defaultValue.value else "");
    if IsNotNull(column) {
      assert ColumnLine(column) == (head + " NOT NULL") + rest;
      PrefixOfConcat(head + " NOT NULL", rest);
    } else {
      assert ColumnLine(column) == head + rest;
      MarkerPresentOnlyWhenAdded(false, head, rest, " NOT NULL");
    }
  }

  /** ` PRIMARY KEY` follows the not-null part exactly for a key column. */
  lemma ColumnLinePrimaryKey(column: SchemaColumn)
    ensures var marked := ColumnHead(column) + (if IsNotNull(column) then " NOT NULL" else "");
      IsPrimaryKey(column) <==> marked + " PRIMARY KEY" <= ColumnLine(column)
  {
    var marked := ColumnHead(column) + (if IsNotNull(column) then " NOT NULL" else "");
    var default := if Truthy(column.defaultValue) then " DEFAULT " + column.defaultValue.value else "";
    if IsPrimaryKey(column) {
      assert ColumnLine(column) == (marked + " PRIMARY KEY") + default;
      PrefixOfConcat(marked + " PRIMARY KEY", default);
    } else {
      assert ColumnLine(column) == marked + default;
      MarkerPresentOnlyWhenAdded(false, marked, default, " PRIMARY KEY");
    }
  }

  /** ` DEFAULT ` follows the flags exactly when a default is given; otherwise the line ends there. */
  lemma ColumnLineDefault(column: SchemaColumn)
    ensures var flagged := ColumnHead(column) + (if IsNotNull(column) then " NOT NULL" else "")
                           + (if IsPrimaryKey(column) then " PRIMARY KEY" else "");
      && (Truthy(column.defaultValue) <==> flagged + " DEFAULT " <= ColumnLine(column))
      && (!Truthy(column.defaultValue) ==> ColumnLine(column) == flagged)
  {
    var flagged := ColumnHead(column) + (if IsNotNull(column) then " NOT NULL" else "")
      + (if IsPrimaryKey(column) then " PRIMARY KEY" else "");
    if Truthy(column.defaultValue) {
      assert ColumnLine(column) == (flagged + " DEFAULT ") + column.defaultValue.value;
      PrefixOfConcat(flagged + " DEFAULT ", column.defaultValue.value);
    } else {
      assert ColumnLine(column) == flagged;
    }
  }

  lemma PrefixOfConcat(a: string, b: string)
    ensures a <= a + b
  {
    assert (a + b)[..|a|] == a;
  }

  /**
   * A marker that was not added is not a prefix of what follows: that is
   * empty or starts with one of the later parts of a column line.
   */
  lemma MarkerPresentOnlyWhenAdded(added: bool, head: string, rest: string, marker: string)
    requires marker == " NOT NULL" || marker == " PRIMARY KEY"
    requires !added ==> rest == [] || " PRIMARY KEY" <= rest || " DEFAULT " <= rest
    requires !added && marker == " PRIMARY KEY" ==> rest == [] || " DEFAULT " <= rest
    ensures !added ==> !(head + marker <= head + rest)
  {
    if !added && rest != [] {
      // the second character tells the markers apart: `N`, `P` or `D`
      assert (head + rest)[|head| + 1] == rest[1];
      assert (head + marker)[|head| + 1] == marker[1] != rest[1];
    }
  }

  /**
   * SQLite's `notnull = 1` and information_schema's `is_nullable = 'NO'`
   * produce the same line; a `notnull` other than 1 does not mark the column.
   */
  lemma {:induction false} NotNullSourcesAgree(column: SchemaColumn)
    ensures ColumnLine(column.(notnull := Some(1.0), isNullable := None))
         == ColumnLine(column.(notnull := None, isNullable := Some("NO")))
    ensures ColumnLine(column.(notnull := Some(2.0), isNullable := Some("YES")))
         == ColumnLine(column.(notnull := Some(0.0), isNullable := None))
  {
    assert IsNotNull(column.(notnull := Some(1.0), isNullable := None));
    assert IsNotNull(column.(notnull := None, isNullable := Some("NO")));
    assert Some("YES") != Some("NO");
    assert !IsNotNull(column.(notnull := Some(2.0), isNullable := Some("YES")));
  }

  function ColumnLines(columns: seq<SchemaColumn>): seq<string>
  {
    if columns == [] then [] else ColumnLines(columns[..|columns| - 1]) + [ColumnLine(columns[|columns| - 1])]
  }

  function TableName(entry: SchemaEntry): string
  {
    OrElse(entry.table, OrElse(entry.name, "telemetry"))
  }

  function EntryColumns(entry: SchemaEntry): seq<SchemaColumn>
  {
    if entry.columns.Some? then entry.columns.value else []
  }

  /** The DDL of an entry: `createSql`, else `sql`, else nothing. */
  function EntryDdl(entry: SchemaEntry): string
  {
    OrElse(entry.createSql, OrElse(entry.sql, ""))
  }

  /** The lines before the column lines: the table line and, for an entry without columns, its own name and type. */
  function EntryHead(entry: SchemaEntry): seq<string>
  {
    ["Tabelle: " + TableName(entry)]
    + (if EntryColumns(entry) == [] && Truthy(entry.name) && Truthy(entry.entryType)
       then ["  - " + entry.name.value + " " + entry.entryType.value] else [])
  }

  /** The lines after the column lines: the DDL when there is one, then an empty line. */
  function EntryTail(entry: SchemaEntry): seq<string>
  {
    (if EntryDdl(entry) != "" then ["  SQL: " + EntryDdl(entry)] else []) + [""]
  }

  /** The lines of one entry: its head, its column lines, its tail. */
  function EntryLines(entry: SchemaEntry): seq<string>
  {
    EntryHead(entry) + ColumnLines(EntryColumns(entry)) + EntryTail(entry)
  }

  function SchemaLines(entries: seq<SchemaEntry>): seq<string>
  {
    if entries == [] then [] else SchemaLines(entries[..|entries| - 1]) + EntryLines(entries[|entries| - 1])
  }

  /** The lines of the first i + 1 entries are those of the first i followed by entry i's. */
  lemma SchemaLinesStep(entries: seq<SchemaEntry>, i: nat)
    requires i < |entries|
    ensures SchemaLines(entries[..i + 1]) == SchemaLines(entries[..i]) + EntryLines(entries[i])
  {
    var done := entries[..i + 1];
    assert done[..i] == entries[..i] && done[i] == entries[i];
  }

  /** What `formatSchema` renders. */
  function SchemaText(schema: SchemaInput): string
  {
    if schema.NotAnArray? || schema.entries == [] then NoSchemaMessage
    else Trim(Join(SchemaLines(schema.entries), "\n"))
  }

  lemma {:induction false} SchemaLinesStartWithFirstTable(entries: seq<SchemaEntry>)
    requires entries != []
    ensures SchemaLines(entries) != [] && SchemaLines(entries)[0] == "Tabelle: " + TableName(entries[0])
    decreases |entries|
  {
    var init := entries[..|entries| - 1];
    if init != [] {
      SchemaLinesStartWithFirstTable(init);
      assert init[0] == entries[0];
    }
  }

  /**
   * Anything other than a non-empty array gives the fallback message; a
   * non-empty array gives text that opens with the first table's line.
   */
  lemma {:induction false} SchemaTextCases(schema: SchemaInput)
    ensures schema.NotAnArray? ==> SchemaText(schema) == NoSchemaMessage
    ensures schema.SchemaArray? && schema.entries == [] ==> SchemaText(schema) == NoSchemaMessage
    ensures schema.SchemaArray? && schema.entries != [] ==> "Tabelle:" <= SchemaText(schema)
  {
    if schema.SchemaArray? && schema.entries != [] {
      var lines := SchemaLines(schema.entries);
      SchemaLinesStartWithFirstTable(schema.entries);
      JoinStartsWithFirst(lines, "\n");
      var joined := Join(lines, "\n");
      assert "Tabelle:" <= lines[0];
      assert "Tabelle:" <= joined;
      TrimKeepsPrefix(joined, "Tabelle:");
    }
  }

  // ---------------------------------------------------------------------
  // The component

  /** An HTTP request the component issues, by method and path. */
  datatype Request = Get(path: string) | Post(path: string)

  class AppComponent {
    /** `window.location.origin`. */
    const defaultOrigin: string
    var baseUrl: string
    var baseUrlInput: string
    /** The `dbwebgui.baseUrl` entry of `localStorage`. */
    var storedBaseUrl: Option<string>
    var selectedDb: string
    var relocateFrom: string
    var relocateTo: string
    var tableColumns: seq<string>
    var tableData: seq<Row>
    var stats: string
    var toasts: seq<Toast>
    var toastId: int
    var requests: seq<Request>

    /** Toast ids increase along the list and none exceeds the last id handed out. */
    ghost predicate Valid()
      reads this
    {
      IdsIncreasing(toasts) && forall i :: 0 <= i < |toasts| ==> toasts[i].id <= toastId
    }

    /** The base URL comes from storage, falling back to the page origin; both relocate ends start at the first database. */
    constructor (origin: string, stored: Option<string>)
      ensures Valid()
      ensures defaultOrigin == origin && storedBaseUrl == stored
      ensures baseUrl == LoadedBaseUrl(stored, origin) && baseUrlInput == baseUrl
      ensures selectedDb == "dbLocal" && relocateFrom == selectedDb && relocateTo == selectedDb
      ensures tableColumns == [] && tableData == [] && stats == StatsText(0, 0)
      ensures toasts == [] && toastId == 0 && requests == []
    {
      defaultOrigin := origin;
      storedBaseUrl := stored;
      baseUrl := LoadedBaseUrl(stored, origin);
      baseUrlInput := baseUrl;
      selectedDb := "dbLocal";
      relocateFrom, relocateTo := "dbLocal", "dbLocal";
      tableColumns, tableData := [], [];
      stats := StatsText(0, 0);
      toasts, toastId := [], 0;
      requests := [];
    }

    /** Adds exactly one toast, numbered one past the last. */
    method ShowToast(message: string, ok: bool)
      requires Valid()
      modifies this
      ensures Valid()
      ensures toastId == old(toastId) + 1
      ensures toasts == old(toasts) + [Toast(toastId, message, if ok then OkToast else ErrorToast)]
      ensures forall i :: 0 <= i < |old(toasts)| ==> old(toasts)[i].id < toastId
      ensures baseUrl == old(baseUrl) && storedBaseUrl == old(storedBaseUrl) && requests == old(requests)
      ensures baseUrlInput == old(baseUrlInput) && selectedDb == old(selectedDb)
      ensures relocateFrom == old(relocateFrom) && relocateTo == old(relocateTo)
      ensures tableColumns == old(tableColumns) && tableData == old(tableData) && stats == old(stats)
    {
      toastId := toastId + 1;
      toasts := toasts + [Toast(toastId, message, if ok then OkToast else ErrorToast)];
    }

    /** The timer that removes a toast after 2.5 seconds. */
    method ExpireToast(id: int)
      requires Valid()
      modifies this
      ensures Valid()
      ensures toasts == WithoutToast(old(toasts), id) && toastId == old(toastId)
      ensures baseUrl == old(baseUrl) && storedBaseUrl == old(storedBaseUrl) && requests == old(requests)
      ensures baseUrlInput == old(baseUrlInput) && selectedDb == old(selectedDb)
      ensures relocateFrom == old(relocateFrom) && relocateTo == old(relocateTo)
      ensures tableColumns == old(tableColumns) && tableData == old(tableData) && stats == old(stats)
    {
      WithoutToastKeepsOrder(toasts, id);
      toasts := WithoutToast(toasts, id);
    }

    method SaveBaseUrl()
      requires Valid()
      modifies this
      ensures Valid()
      ensures baseUrl == SavedBaseUrl(old(baseUrlInput), defaultOrigin)
      ensures storedBaseUrl == Some(baseUrl)
      ensures toastId == old(toastId) + 1
      ensures toasts == old(toasts) + [Toast(toastId, BaseUrlSavedMessage, OkToast)]
      ensures requests == old(requests)
      ensures baseUrlInput == old(baseUrlInput) && selectedDb == old(selectedDb)
      ensures relocateFrom == old(relocateFrom) && relocateTo == old(relocateTo)
      ensures tableColumns == old(tableColumns) && tableData == old(tableData) && stats == old(stats)
    {
      var trimmed := Trim(baseUrlInput);
      var newValue := if |trimmed| > 0 then trimmed else defaultOrigin;
      baseUrl := newValue;
      storedBaseUrl := Some(newValue);
      ShowToast(BaseUrlSavedMessage, true);
    }

    /** Refuses, with an error toast and no request, to relocate a database onto itself. */
    method RelocateData()
      requires Valid()
      modifies this
      ensures Valid()
      ensures old(relocateFrom) == old(relocateTo) ==>
        && requests == old(requests)
        && toastId == old(toastId) + 1
        && toasts == old(toasts) + [Toast(toastId, RelocateRefusedMessage, ErrorToast)]
      ensures old(relocateFrom) != old(relocateTo) ==>
        && requests == old(requests) + [Post(RelocatePath(relocateFrom, relocateTo))]
        && toastId == old(toastId)
        && toasts == old(toasts)
      ensures relocateFrom == old(relocateFrom) && relocateTo == old(relocateTo)
      ensures baseUrl == old(baseUrl) && storedBaseUrl == old(storedBaseUrl)
      ensures baseUrlInput == old(baseUrlInput) && selectedDb == old(selectedDb)
      ensures tableColumns == old(tableColumns) && tableData == old(tableData) && stats == old(stats)
    {
      if relocateFrom == relocateTo {
        ShowToast(RelocateRefusedMessage, false);
        return;
      }
      requests := requests + [Post(RelocatePath(relocateFrom, relocateTo))];
    }

    /** `updateTable`: the table shows the rows and their columns, and the statistics count both. */
    method UpdateTable(rows: seq<Row>)
      modifies this
      ensures tableColumns == Columns(rows) && tableData == rows
      ensures stats == StatsText(|rows|, |tableColumns|)
      ensures toasts == old(toasts) && toastId == old(toastId) && requests == old(requests)
      ensures baseUrl == old(baseUrl) && storedBaseUrl == old(storedBaseUrl)
      ensures baseUrlInput == old(baseUrlInput) && selectedDb == old(selectedDb)
      ensures relocateFrom == old(relocateFrom) && relocateTo == old(relocateTo)
    {
      if |rows| == 0 {
        tableColumns := [];
        tableData := [];
        stats := "0 Zeilen · 0 Spalten";
        return;
      }
      var columns := Columns(rows);
      tableColumns := columns;
      tableData := rows;
      stats := NatToString(|rows|) + " Zeilen · " + NatToString(|columns|) + " Spalten";
    }

    /** The lines `formatSchema` collects for one entry. */
    method CollectEntryLines(entry: SchemaEntry) returns (lines: seq<string>)
      ensures lines == EntryLines(entry)
    {
      lines := ["Tabelle: " + TableName(entry)];
      var columns := if entry.columns.Some? then entry.columns.value else [];
      if |columns| == 0 && Truthy(entry.name) && Truthy(entry.entryType) {
        lines := lines + ["  - " + entry.name.value + " " + entry.entryType.value];
      }
      assert lines == EntryHead(entry);
      ghost var head := lines;
      var j := 0;
      while j < |columns|
        invariant 0 <= j <= |columns|
        invariant lines == head + ColumnLines(columns[..j])
      {
        lines := lines + [ColumnLine(columns[j])];
        assert columns[..j + 1][..j] == columns[..j];
        j := j + 1;
      }
      assert columns[..|columns|] == columns;
      var ddl := OrElse(entry.createSql, OrElse(entry.sql, ""));
      if ddl != "" {
        lines := lines + ["  SQL: " + ddl];
      }
      lines := lines + [""];
    }

    /** The loop of `formatSchema`: the lines of every entry, in order. */
    method CollectSchemaLines(entries: seq<SchemaEntry>) returns (lines: seq<string>)
      ensures lines == SchemaLines(entries)
    {
      lines := [];
      var i := 0;
      while i < |entries|
        invariant 0 <= i <= |entries|
        invariant lines == SchemaLines(entries[..i])
      {
        var entryLines := CollectEntryLines(entries[i]);
        SchemaLinesStep(entries, i);
        lines := lines + entryLines;
        i := i + 1;
      }
      assert entries[..|entries|] == entries;
    }

    /** `formatSchema`: collects the lines of a non-empty schema, then joins and trims them. */
    method FormatSchema(schema: SchemaInput) returns (text: string)
      ensures text == SchemaText(schema)
    {
      if schema.NotAnArray? || |schema.entries| == 0 {
        return NoSchemaMessage;
      }
      var lines := CollectSchemaLines(schema.entries);
      text := Trim(Join(lines, "\n"));
    }
  }
}
