/** The question bank: the Question record, the bank's
    `category -> [ { difficulty -> questions } ]` layout with the lookup
    `bank[category]?.[0]?.[difficulty]`, and the normaliser of
    app/api/bank/route.ts, which accepts the bank either already in that layout
    or as flat spreadsheet rows. */
module Bank {
  import opened Util

  /** One quiz question. `waktu` is the time allowed, in seconds. */
  datatype Question = Question(
    tipe: string, soal: string,
    pgA: string, pgB: string, pgC: string, pgD: string,
    jawaban: string, waktu: int)

  /** `Record<difficulty, Question[]>` */
  type Pools = map<string, seq<Question>>

  /** `Record<category, [Record<difficulty, Question[]>]>`: only element 0 of each array is read. */
  type QuestionBank = map<string, seq<Pools>>

  /** `bank[category]?.[0]?.[difficulty]`: the pool, or None when any step is missing. */
  function Lookup(bank: QuestionBank, category: string, difficulty: string): (r: Option<seq<Question>>)
    ensures r.Some? <==> category in bank && |bank[category]| > 0 && difficulty in bank[category][0]
    ensures r.Some? ==> r.value == bank[category][0][difficulty]
  {
    if category in bank && |bank[category]| > 0 && difficulty in bank[category][0]
    then Some(bank[category][0][difficulty])
    else None
  }

  // ---------------------------------------------------------------------------
  // Input shapes of the normaliser
  // ---------------------------------------------------------------------------

  /** A JSON value, only as deep as shape detection looks. */
  datatype Json = JArray(items: seq<Json>) | JObject(fields: seq<(string, Json)>) | JScalar

  /** One spreadsheet row. `waktu` is what JavaScript's `Number(row.waktu)` yields:
      None stands for NaN. */
  datatype Row = Row(
    kategori: Option<string>, tingkat: Option<string>, soal: string,
    pgA: string, pgB: string, pgC: string, pgD: string,
    jawaban: string, waktu: Option<int>)

  /** What the bank service may return. */
  datatype Raw =
    | RawObject(fields: seq<(string, Json)>)  // a non-array object, fields in Object.values order
    | RawRows(rows: seq<Row>)                 // an array of rows
    | RawScalar                               // null, a number, a string or a boolean

  /** The normaliser's output: the input object passed through by a cast, or a bank it built. */
  datatype Normalised = Unchanged(fields: seq<(string, Json)>) | Grouped(bank: QuestionBank)

  /** `Number(row.waktu) || 30`: zero and NaN both fall back to 30 seconds. */
  function WaktuOf(parsed: Option<int>): (w: int)
    ensures w != 0
    ensures parsed.Some? && parsed.value != 0 ==> w == parsed.value
    ensures parsed.None? || parsed.value == 0 ==> w == 30
  {
    if parsed.Some? && parsed.value != 0 then parsed.value else 30
  }

  /** The question a row becomes: always multiple choice. */
  function ToQuestion(row: Row): (q: Question)
    ensures q.tipe == "Pilihan Ganda" && q.waktu == WaktuOf(row.waktu)
    ensures q.soal == row.soal && q.jawaban == row.jawaban
  {
    Question("Pilihan Ganda", row.soal, row.pgA, row.pgB, row.pgC, row.pgD, row.jawaban, WaktuOf(row.waktu))
  }

  function RowCategory(row: Row): string { Trim(row.kategori.GetOr("")) }
  function RowDifficulty(row: Row): string { Trim(row.tingkat.GetOr("")) }

  /** A row is kept unless its trimmed `kategori` or `tingkat` is empty. */
  predicate Kept(row: Row) { RowCategory(row) != "" && RowDifficulty(row) != "" }

  /** `result[cat][0][diff].push(q)`, creating `result[cat]`, `result[cat][0]` and
      `result[cat][0][diff]` first when they are missing. */
  function File(result: QuestionBank, cat: string, diff: string, q: Question): (r: QuestionBank)
    ensures forall c :: c in r <==> c in result || c == cat
    ensures Lookup(r, cat, diff) == Some(Lookup(result, cat, diff).GetOr([]) + [q])
    ensures forall c, d :: (c, d) != (cat, diff) ==> Lookup(r, c, d) == Lookup(result, c, d)
  {
    var arr := if cat in result && |result[cat]| > 0 then result[cat] else [map[]];
    var pools := arr[0];
    var pool := if diff in pools then pools[diff] else [];
    result[cat := arr[0 := pools[diff := pool + [q]]]]
  }

  /** One turn of the row loop: skip a row without category or difficulty, file the others. */
  function AddRow(result: QuestionBank, row: Row): (r: QuestionBank)
    ensures !Kept(row) ==> r == result
    ensures Kept(row) ==>
              Lookup(r, RowCategory(row), RowDifficulty(row))
                == Some(Lookup(result, RowCategory(row), RowDifficulty(row)).GetOr([]) + [ToQuestion(row)])
    ensures forall c, d :: (c, d) != (RowCategory(row), RowDifficulty(row)) ==> Lookup(r, c, d) == Lookup(result, c, d)
    ensures forall c :: c in r <==> c in result || (Kept(row) && c == RowCategory(row))
  {
    if !Kept(row) then result
    else File(result, RowCategory(row), RowDifficulty(row), ToQuestion(row))
  }

  /** The bank the row loop has built after the given rows. */
  function GroupRows(rows: seq<Row>): (r: QuestionBank)
    ensures forall c :: c in r ==> c != ""
    ensures forall c, d :: Lookup(r, c, d).Some? ==> d != "" && Lookup(r, c, d).value != []
  {
    if rows == [] then map[] else AddRow(GroupRows(rows[..|rows| - 1]), rows[|rows| - 1])
  }

  /** What `normalise` returns for each input shape. */
  function NormalForm(raw: Raw): (r: Normalised)
    ensures r.Unchanged? ==> raw.RawObject? && r.fields == raw.fields
    ensures raw.RawRows? ==> r.Grouped?
    ensures r.Grouped? ==> forall c, d :: Lookup(r.bank, c, d).Some? ==> Lookup(r.bank, c, d).value != []
  {
    match raw
    case RawObject(fields) =>
      if |fields| > 0 && fields[0].1.JArray? then Unchanged(fields) else Grouped(map[])
    case RawRows(rows) => Grouped(GroupRows(rows))
    case RawScalar => Grouped(map[])
  }

  lemma GroupRowsStep(rows: seq<Row>, i: nat)
    requires i < |rows|
    ensures GroupRows(rows[..i + 1]) == AddRow(GroupRows(rows[..i]), rows[i])
  {
    assert rows[..i + 1][..i] == rows[..i];
  }

  /** The lazy creation and the push of the row loop, step by step. */
  method FileInPlace(result: QuestionBank, cat: string, diff: string, q: Question)
    returns (r: QuestionBank)
    ensures r == File(result, cat, diff, q)
  {
    r := result;
    if cat !in r {
      r := r[cat := [map[]]];
    }
    if |r[cat]| == 0 {
      r := r[cat := [map[]]];
    }
    ghost var arr := r[cat];
    assert arr == if cat in result && |result[cat]| > 0 then result[cat] else [map[]];
    if diff !in r[cat][0] {
      r := r[cat := r[cat][0 := r[cat][0][diff := []]]];
    }
    var tables := r[cat];
    var pools := tables[0];
    ghost var pool := if diff in arr[0] then arr[0][diff] else [];
    assert pools == arr[0][diff := pool];
    assert pools[diff := pools[diff] + [q]] == arr[0][diff := pool + [q]];
    assert tables[0 := pools[diff := pools[diff] + [q]]] == arr[0 := arr[0][diff := pool + [q]]];
    r := r[cat := tables[0 := pools[diff := pools[diff] + [q]]]];
  }

  /** `normalise(raw)`: shape detection, then the row loop that fills the bank in place. */
  method Normalise(raw: Raw) returns (r: Normalised)
    ensures r == NormalForm(raw)
  {
    if raw.RawObject? && |raw.fields| > 0 && raw.fields[0].1.JArray? {
      return Unchanged(raw.fields);
    }
    if raw.RawRows? {
      var rows := raw.rows;
      var result: QuestionBank := map[];
      for i := 0 to |rows|
        invariant result == GroupRows(rows[..i])
      {
        GroupRowsStep(rows, i);
        var row := rows[i];
        var cat := Trim(row.kategori.GetOr(""));
        var diff := Trim(row.tingkat.GetOr(""));
        if cat == "" || diff == "" {
          continue;
        }
        result := FileInPlace(result, cat, diff, ToQuestion(row));
      }
      assert rows[..|rows|] == rows;
      return Grouped(result);
    }
    return Grouped(map[]);
  }

  // ---------------------------------------------------------------------------
  // What the grouping promises
  // ---------------------------------------------------------------------------

  /** The questions of the kept rows filed under (category, difficulty), in row order. */
  function KeptPool(rows: seq<Row>, category: string, difficulty: string): (r: seq<Question>)
    ensures forall q :: q in r ==> q.tipe == "Pilihan Ganda" && q.waktu != 0
    ensures |r| <= |rows|
  {
    if rows == [] then []
    else
      var row := rows[|rows| - 1];
      var prior := KeptPool(rows[..|rows| - 1], category, difficulty);
      if Kept(row) && RowCategory(row) == category && RowDifficulty(row) == difficulty
      then prior + [ToQuestion(row)] else prior
  }

  /** The rows that survive the empty-key check, in order. */
  function KeptRows(rows: seq<Row>): (r: seq<Row>)
    ensures |r| <= |rows|
    ensures forall row :: row in r ==> Kept(row) && row in rows
  {
    if rows == [] then []
    else
      var prior := KeptRows(rows[..|rows| - 1]);
      if Kept(rows[|rows| - 1]) then prior + [rows[|rows| - 1]] else prior
  }

  /** Some kept row names this category. */
  predicate HasCategory(rows: seq<Row>, category: string) {
    exists row :: row in rows && Kept(row) && RowCategory(row) == category
  }

  /** Every category of a grouped bank holds exactly one difficulty table. */
  lemma {:induction false} GroupRowsSingleTable(rows: seq<Row>)
    ensures forall c :: c in GroupRows(rows) ==> |GroupRows(rows)[c]| == 1
  {
    if rows != [] {
      GroupRowsSingleTable(rows[..|rows| - 1]);
    }
  }

  /** The categories of a grouped bank are exactly those of its kept rows. */
  lemma {:induction false} GroupRowsCategories(rows: seq<Row>, category: string)
    ensures category in GroupRows(rows) <==> HasCategory(rows, category)
  {
    if rows != [] {
      var init, last := rows[..|rows| - 1], rows[|rows| - 1];
      GroupRowsCategories(init, category);
      assert rows == init + [last];
      if HasCategory(rows, category) && !(Kept(last) && RowCategory(last) == category) {
        var row :| row in rows && Kept(row) && RowCategory(row) == category;
        assert row in init;
      }
    }
  }

  /** Each pool of a grouped bank holds the questions of its kept rows, in input
      order; a (category, difficulty) with no kept row has no pool. */
  lemma {:induction false} GroupRowsPool(rows: seq<Row>, category: string, difficulty: string)
    ensures Lookup(GroupRows(rows), category, difficulty)
         == if KeptPool(rows, category, difficulty) == [] then None
            else Some(KeptPool(rows, category, difficulty))
  {
    if rows != [] {
      var init, last := rows[..|rows| - 1], rows[|rows| - 1];
      GroupRowsPool(init, category, difficulty);
      GroupRowsSingleTable(init);
    }
  }

  // ---------------------------------------------------------------------------
  // Counting the questions of a bank
  // ---------------------------------------------------------------------------

  function Lengths(pools: Pools): map<string, int> {
    map d | d in pools :: |pools[d]|
  }

  /** The questions filed under one category (only table 0 is read). */
  ghost function CategoryTotal(tables: seq<Pools>): int {
    if |tables| > 0 then SumValues(Lengths(tables[0])) else 0
  }

  /** The number of questions a bank offers. */
  ghost function Total(bank: QuestionBank): int {
    SumValues(map c | c in bank :: CategoryTotal(bank[c]))
  }

  /** The difficulty table of `cat`, or an empty one. */
  function TableOf(bank: QuestionBank, cat: string): Pools {
    if cat in bank && |bank[cat]| > 0 then bank[cat][0] else map[]
  }

  lemma FileSingleTable(bank: QuestionBank, cat: string, diff: string, q: Question)
    requires cat in bank ==> |bank[cat]| == 1
    ensures File(bank, cat, diff, q)
         == bank[cat := [TableOf(bank, cat)[diff := (if diff in TableOf(bank, cat) then TableOf(bank, cat)[diff] else []) + [q]]]]
  {
    var arr: seq<Pools> := if cat in bank then bank[cat] else [map[]];
    var pools := TableOf(bank, cat);
    var pool := if diff in pools then pools[diff] else [];
    assert arr[0 := pools[diff := pool + [q]]] == [pools[diff := pool + [q]]];
  }

  lemma PushTotal(pools: Pools, diff: string, q: Question)
    ensures CategoryTotal([pools[diff := (if diff in pools then pools[diff] else []) + [q]]])
         == SumValues(Lengths(pools)) + 1
  {
    var pool := if diff in pools then pools[diff] else [];
    assert Lengths(pools[diff := pool + [q]]) == Lengths(pools)[diff := |pool| + 1];
    SumValuesUpdate(Lengths(pools), diff, |pool| + 1);
  }

  lemma TotalUpdate(bank: QuestionBank, cat: string, tables: seq<Pools>)
    ensures Total(bank[cat := tables])
         == Total(bank) - (if cat in bank then CategoryTotal(bank[cat]) else 0) + CategoryTotal(tables)
  {
    var totals := map c | c in bank :: CategoryTotal(bank[c]);
    var bank' := bank[cat := tables];
    assert (map c | c in bank' :: CategoryTotal(bank'[c])) == totals[cat := CategoryTotal(tables)];
    SumValuesUpdate(totals, cat, CategoryTotal(tables));
  }

  lemma AddRowTotal(bank: QuestionBank, row: Row)
    requires forall c :: c in bank ==> |bank[c]| == 1
    ensures Total(AddRow(bank, row)) == Total(bank) + (if Kept(row) then 1 else 0)
  {
    if Kept(row) {
      var cat, diff, q := RowCategory(row), RowDifficulty(row), ToQuestion(row);
      var pools := TableOf(bank, cat);
      var pool := if diff in pools then pools[diff] else [];
      FileSingleTable(bank, cat, diff, q);
      TotalUpdate(bank, cat, [pools[diff := pool + [q]]]);
      PushTotal(pools, diff, q);
      if cat !in bank {
        assert Lengths(pools) == map[];
      }
    }
  }

  /** Grouping neither drops nor duplicates a question: the bank holds one
      question per kept row. */
  lemma {:induction false} GroupRowsTotal(rows: seq<Row>)
    ensures Total(GroupRows(rows)) == |KeptRows(rows)|
  {
    if rows != [] {
      var init := rows[..|rows| - 1];
      GroupRowsTotal(init);
      GroupRowsSingleTable(init);
      AddRowTotal(GroupRows(init), rows[|rows| - 1]);
    }
  }

  /** The shapes `normalise` tells apart: an object whose first value is an
      array passes through unchanged; rows are grouped; anything else is an
      empty bank. */
  lemma NormalFormShapes(raw: Raw)
    ensures raw.RawObject? && |raw.fields| > 0 && raw.fields[0].1.JArray?
            ==> NormalForm(raw) == Unchanged(raw.fields)
    ensures raw.RawObject? && (|raw.fields| == 0 || !raw.fields[0].1.JArray?)
            ==> NormalForm(raw) == Grouped(map[])
    ensures raw.RawScalar? ==> NormalForm(raw) == Grouped(map[])
    ensures raw.RawRows? ==> (NormalForm(raw).Grouped?
                              && Total(NormalForm(raw).bank) == |KeptRows(raw.rows)|)
  {
    if raw.RawRows? {
      GroupRowsTotal(raw.rows);
    }
  }
}
