/**
 * The import core: reading parsed CSV rows, normalising the rows that pass the
 * required-field check, grouping them into batches of `BATCH_SIZE`, and
 * inserting-or-updating each batch on the sku, with progress checkpoints.
 */
module CsvProcessor {
  import opened Wrappers
  import opened Text
  import opened Models
  import opened Store

  /** Rows per upsert statement and per progress checkpoint. */
  const BATCH_SIZE: nat := 1000

  /**
   * A row as the CSV reader yields it: column name to field. A short row maps
   * its missing trailing columns to None (the reader's `restval`).
   */
  type RawRow = map<string, Option<string>>

  /** `row.get(column)`: None both for an absent column and for a missing field. */
  function Get(row: RawRow, column: string): Option<string> {
    if column in row then row[column] else None
  }

  /** `if not row.get("sku") or not row.get("name"): continue`, applied to the RAW values. */
  predicate Keeps(row: RawRow) {
    && Get(row, "sku").Some? && Get(row, "sku").value != ""
    && Get(row, "name").Some? && Get(row, "name").value != ""
  }

  /**
   * `row.get("description", "")` yields None when the file has a description
   * column but this row stops short of it, and `.strip()` on None raises.
   */
  predicate DescriptionMissing(row: RawRow) {
    "description" in row && row["description"].None?
  }

  /** A product record ready for the upsert. */
  datatype ProductData = ProductData(sku: string, name: string, description: Option<string>, active: bool)

  /** The normalised record of a kept row: sku stripped and lower-cased, name stripped, blank description absent, active. */
  function Normalise(row: RawRow): ProductData
    requires Keeps(row) && !DescriptionMissing(row)
  {
    var desc := Trim(if "description" in row then row["description"].value else "");
    ProductData(Lower(Trim(row["sku"].value)), Trim(row["name"].value), if desc == "" then None else Some(desc), true)
  }

  /** A normalised record carries a lower-case sku, stripped name, and a description that is absent or non-blank and stripped. */
  lemma NormalisedShape(row: RawRow)
    requires Keeps(row) && !DescriptionMissing(row)
    ensures var d := Normalise(row);
      && IsLower(d.sku) && d.active
      && d.sku == Lower(Trim(row["sku"].value)) && d.name == Trim(row["name"].value)
      && (d.description.None? <==> !("description" in row) || AllSpace(row["description"].value))
      && (d.description.Some? ==> d.description.value == Trim(row["description"].value))
  {
    LowerIsLower(Trim(row["sku"].value));
    if "description" in row {
      TrimEmptyIffAllSpace(row["description"].value);
    }
  }

  /**
   * The validity check runs before stripping, so a row whose sku is white space
   * only is kept and imported with the empty sku.
   */
  lemma WhitespaceSkuIsKeptAsEmpty(row: RawRow)
    requires "sku" in row && row["sku"].Some? && row["sku"].value != "" && AllSpace(row["sku"].value)
    requires "name" in row && row["name"] == Some("widget")
    requires "description" !in row
    ensures Keeps(row) && Normalise(row).sku == ""
  {
    TrimEmptyIffAllSpace(row["sku"].value);
  }

  /** What the row loop has read: the normalised kept rows, and whether a row raised. */
  datatype Ingested = Ingested(kept: seq<ProductData>, crashed: bool)

  /**
   * The row loop over `rows`, one row at a time: skip a row that fails the check,
   * stop at a kept row whose description field is missing, normalise the rest.
   */
  function Ingest(rows: seq<RawRow>): (r: Ingested)
    ensures |r.kept| <= |rows|
    decreases |rows|
  {
    if rows == [] then Ingested([], false)
    else
      var prev := Ingest(rows[..|rows| - 1]);
      var row := rows[|rows| - 1];
      if prev.crashed || !Keeps(row) then prev
      else if DescriptionMissing(row) then prev.(crashed := true)
      else prev.(kept := prev.kept + [Normalise(row)])
  }

  /** Every sku in a sequence of records is lower-case. */
  predicate AllLower(b: seq<ProductData>) {
    forall i :: 0 <= i < |b| ==> IsLower(b[i].sku)
  }

  /** The row loop only ever produces lower-case skus. */
  lemma {:induction false} IngestAllLower(rows: seq<RawRow>)
    ensures AllLower(Ingest(rows).kept)
    decreases |rows|
  {
    if rows != [] {
      var row := rows[|rows| - 1];
      var prev := Ingest(rows[..|rows| - 1]);
      IngestAllLower(rows[..|rows| - 1]);
      if !prev.crashed && Keeps(row) && !DescriptionMissing(row) {
        var d := Normalise(row);
        LowerIsLower(Trim(row["sku"].value));
        assert IsLower(d.sku);
        assert Ingest(rows).kept == prev.kept + [d];
      }
    }
  }

  /** `count_csv_rows`: every data row, kept or not. */
  function CountCsvRows(rows: seq<RawRow>): nat {
    |rows|
  }

  /** Processed rows never exceed the counted total. */
  lemma ProcessedAtMostCounted(rows: seq<RawRow>)
    ensures |Ingest(rows).kept| <= CountCsvRows(rows)
  {
  }

  /** The kept rows, normalised, in file order: a filter over the whole file, defined independently of the loop. */
  function KeptRows(rows: seq<RawRow>): seq<ProductData>
    requires NoShortKept(rows)
  {
    if rows == [] then []
    else
      NoShortKeptSlice(rows, 0, |rows| - 1);
      KeptRows(rows[..|rows| - 1]) + KeptRow(rows[|rows| - 1])
  }

  /** One row's contribution to the kept rows: its normalised record, or nothing. */
  function KeptRow(row: RawRow): seq<ProductData>
    requires Keeps(row) ==> !DescriptionMissing(row)
  {
    if Keeps(row) then [Normalise(row)] else []
  }

  /** No kept row stops short of its description field. */
  predicate NoShortKept(rows: seq<RawRow>) {
    forall i :: 0 <= i < |rows| ==> (Keeps(rows[i]) ==> !DescriptionMissing(rows[i]))
  }

  lemma NoShortKeptSlice(rows: seq<RawRow>, lo: nat, hi: nat)
    requires NoShortKept(rows) && lo <= hi <= |rows|
    ensures NoShortKept(rows[lo..hi])
  {
    assert forall i :: 0 <= i < hi - lo ==> rows[lo..hi][i] == rows[lo + i];
  }

  /** The row loop yields exactly the kept rows when no kept row is short of its description. */
  lemma {:induction false} IngestIsFilter(rows: seq<RawRow>)
    requires NoShortKept(rows)
    ensures !Ingest(rows).crashed && Ingest(rows).kept == KeptRows(rows)
    decreases |rows|
  {
    if rows != [] {
      var init := rows[..|rows| - 1];
      var row := rows[|rows| - 1];
      NoShortKeptSlice(rows, 0, |rows| - 1);
      IngestIsFilter(init);
    }
  }

  /** Once a row has raised, later rows change nothing. */
  lemma {:induction false} IngestStopsAtCrash(rows: seq<RawRow>, i: nat)
    requires i <= |rows|
    requires Ingest(rows[..i]).crashed
    ensures Ingest(rows) == Ingest(rows[..i])
    decreases |rows| - i
  {
    if i < |rows| {
      assert rows[..i + 1][..i] == rows[..i];
      assert Ingest(rows[..i + 1]) == Ingest(rows[..i]);
      IngestStopsAtCrash(rows, i + 1);
    } else {
      assert rows[..i] == rows;
    }
  }

  /** Reading one more row only ever appends to what was kept. */
  lemma IngestGrows(rows: seq<RawRow>)
    requires rows != []
    ensures Ingest(rows[..|rows| - 1]).kept <= Ingest(rows).kept
  {
  }

  lemma PrefixTransitive<T>(a: seq<T>, b: seq<T>, c: seq<T>)
    requires a <= b && b <= c
    ensures a <= c
  {
    assert forall k :: 0 <= k < |a| ==> a[k] == b[k] == c[k];
  }

  /** What the loop has read so far is a prefix of what it reads in all. */
  lemma {:induction false} IngestPrefix(rows: seq<RawRow>, i: nat)
    requires i <= |rows|
    ensures Ingest(rows[..i]).kept <= Ingest(rows).kept
    decreases |rows| - i
  {
    if i < |rows| {
      var next := rows[..i + 1];
      var a, b, c := Ingest(rows[..i]).kept, Ingest(next).kept, Ingest(rows).kept;
      assert a <= b by {
        assert next[..|next| - 1] == rows[..i];
        IngestGrows(next);
      }
      assert b <= c by {
        IngestPrefix(rows, i + 1);
      }
      PrefixTransitive(a, b, c);
    } else {
      assert rows[..i] == rows;
    }
  }

  /** The batches the loop forms: full batches of `BATCH_SIZE` in file order, then the non-empty remainder. */
  function Batches(s: seq<ProductData>): seq<seq<ProductData>>
    decreases |s|
  {
    if |s| == 0 then []
    else if |s| < BATCH_SIZE then [s]
    else [s[..BATCH_SIZE]] + Batches(s[BATCH_SIZE..])
  }

  /** Concatenating a sequence of batches. */
  function Flatten(bs: seq<seq<ProductData>>): seq<ProductData> {
    if bs == [] then [] else bs[0] + Flatten(bs[1..])
  }

  /**
   * ceil(n / 1000) upserts; every batch but the last holds exactly 1000 rows, the
   * last holds 1..1000; and together they are the rows in order.
   */
  lemma {:induction false} BatchesShape(s: seq<ProductData>)
    ensures var bs := Batches(s);
      && |bs| == (|s| + BATCH_SIZE - 1) / BATCH_SIZE
      && (forall i :: 0 <= i < |bs| - 1 ==> |bs[i]| == BATCH_SIZE)
      && (bs != [] ==> 1 <= |bs[|bs| - 1]| <= BATCH_SIZE)
      && Flatten(bs) == s
    decreases |s|
  {
    if |s| >= BATCH_SIZE {
      var rest := s[BATCH_SIZE..];
      BatchesShape(rest);
      assert s[..BATCH_SIZE] + rest == s;
    }
  }

  /** Batching splits at every multiple of the batch size. */
  lemma {:induction false} BatchesAppendFull(a: seq<ProductData>, b: seq<ProductData>)
    requires |a| % BATCH_SIZE == 0
    ensures Batches(a + b) == Batches(a) + Batches(b)
    decreases |a|
  {
    if |a| > 0 {
      assert (a + b)[..BATCH_SIZE] == a[..BATCH_SIZE];
      assert (a + b)[BATCH_SIZE..] == a[BATCH_SIZE..] + b;
      BatchesAppendFull(a[BATCH_SIZE..], b);
    } else {
      assert a + b == b;
    }
  }

  /** A run of 1..1000 rows is one batch. */
  lemma OneBatch(s: seq<ProductData>)
    requires 0 < |s| <= BATCH_SIZE
    ensures Batches(s) == [s]
  {
    if |s| == BATCH_SIZE {
      assert s[..BATCH_SIZE] == s;
      assert s[BATCH_SIZE..] == [];
    }
  }

  /** The skus of a batch: the `IN` list of the existing-count query. */
  function SkuSet(b: seq<ProductData>): set<string> {
    set d | d in b :: d.sku
  }

  /** The rows the existing-count query matches: those whose lower-cased sku is in the batch. */
  function ExistingSkus(c: Catalog, b: seq<ProductData>): set<string> {
    set k | k in c.rows && Lower(c.rows[k].sku) in SkuSet(b)
  }

  /** The count the source takes as "updated"; the rest of the batch is "created". */
  function ExistingCount(c: Catalog, b: seq<ProductData>): nat {
    |ExistingSkus(c, b)|
  }

  /** No sku occurs twice in the batch. */
  predicate Distinct(b: seq<ProductData>) {
    forall i, j :: 0 <= i < j < |b| ==> b[i].sku != b[j].sku
  }

  /** Every record fits the `sku` and `name` columns. */
  predicate AllFit(b: seq<ProductData>) {
    forall i :: 0 <= i < |b| ==> |b[i].sku| <= SKU_MAX && |b[i].name| <= PRODUCT_NAME_MAX
  }

  /**
   * Why the multi-row statement fails, if it does, scanning the rows in order:
   * a value longer than its column, or a second row for a sku already seen in
   * the same statement (ON CONFLICT DO UPDATE cannot affect a row twice).
   */
  function FirstRejection(b: seq<ProductData>, seen: set<string>): Option<DbError>
    decreases |b|
  {
    if b == [] then None
    else if |b[0].sku| > SKU_MAX then Some(SkuTooLong)
    else if |b[0].name| > PRODUCT_NAME_MAX then Some(NameTooLong)
    else if b[0].sku in seen then Some(RowAffectedTwice(b[0].sku))
    else FirstRejection(b[1..], seen + {b[0].sku})
  }

  /** The statement succeeds exactly when every value fits and no sku repeats. */
  lemma {:induction false} NoRejectionIff(b: seq<ProductData>, seen: set<string>)
    ensures FirstRejection(b, seen).None? <==>
      AllFit(b) && Distinct(b) && (forall i :: 0 <= i < |b| ==> b[i].sku !in seen)
    decreases |b|
  {
    if b != [] {
      var t := b[1..];
      NoRejectionIff(t, seen + {b[0].sku});
      if AllFit(b) && Distinct(b) && (forall i :: 0 <= i < |b| ==> b[i].sku !in seen) {
        assert AllFit(t);
        assert Distinct(t) by {
          forall i, j | 0 <= i < j < |t| ensures t[i].sku != t[j].sku {
            assert t[i] == b[i + 1] && t[j] == b[j + 1];
          }
        }
        forall i | 0 <= i < |t| ensures t[i].sku !in seen + {b[0].sku} {
          assert t[i] == b[i + 1];
        }
      }
      if FirstRejection(b, seen).None? {
        assert AllFit(b) by {
          forall i | 0 <= i < |b| ensures |b[i].sku| <= SKU_MAX && |b[i].name| <= PRODUCT_NAME_MAX {
            if i > 0 { assert b[i] == t[i - 1]; }
          }
        }
        assert Distinct(b) by {
          forall i, j | 0 <= i < j < |b| ensures b[i].sku != b[j].sku {
            assert b[j] == t[j - 1];
            if i > 0 { assert b[i] == t[i - 1]; }
          }
        }
        forall i | 0 <= i < |b| ensures b[i].sku !in seen {
          if i > 0 { assert b[i] == t[i - 1]; }
        }
      }
    }
  }

  /**
   * One row of `INSERT ... ON CONFLICT (sku) DO UPDATE SET name, description`.
   * The serial default is evaluated for every proposed row before the conflict
   * check, so each row draws the next id: a new sku is inserted with it; an
   * existing one discards it, keeps its id, sku and active flag and takes the
   * new name and description.
   */
  function UpsertRow(c: Catalog, d: ProductData): Catalog {
    if d.sku in c.rows then
      Catalog(c.rows[d.sku := c.rows[d.sku].(name := d.name, description := d.description)], c.nextId + 1)
    else
      Catalog(c.rows[d.sku := Product(c.nextId, d.sku, d.name, d.description, d.active)], c.nextId + 1)
  }

  /** The whole batch, row by row. */
  function UpsertAll(c: Catalog, b: seq<ProductData>): Catalog
    decreases |b|
  {
    if b == [] then c else UpsertAll(UpsertRow(c, b[0]), b[1..])
  }

  lemma SkuSetCons(b: seq<ProductData>)
    requires b != []
    ensures SkuSet(b) == {b[0].sku} + SkuSet(b[1..])
  {
    assert forall d :: d in b <==> d == b[0] || d in b[1..];
  }

  /** In a batch without repeats the first sku does not occur again. */
  lemma HeadNotInTail(b: seq<ProductData>)
    requires b != [] && Distinct(b)
    ensures b[0].sku !in SkuSet(b[1..])
  {
    var t := b[1..];
    forall d | d in t ensures d.sku != b[0].sku {
      var j :| 0 <= j < |t| && t[j] == d;
      assert b[j + 1] == d;
    }
  }

  lemma SetSizes<T>(A: set<T>, B: set<T>)
    ensures |A * B| <= |B|
    ensures |A + B| == |A| + |B| - |A * B|
  {
    assert |B| == |B - A| + |A * B| by {
      assert B == (B - A) + (A * B);
      assert (B - A) * (A * B) == {};
    }
  }

  /** After the batch the table holds its old skus and the batch's, and the serial advanced once per proposed row. */
  lemma {:induction false} UpsertKeys(c: Catalog, b: seq<ProductData>)
    ensures UpsertAll(c, b).rows.Keys == c.rows.Keys + SkuSet(b)
    ensures UpsertAll(c, b).nextId == c.nextId + |b|
    decreases |b|
  {
    if b != [] {
      SkuSetCons(b);
      UpsertKeys(UpsertRow(c, b[0]), b[1..]);
    }
  }

  /** Rows whose sku is not in the batch are left exactly as they were. */
  lemma {:induction false} UpsertLeavesOthers(c: Catalog, b: seq<ProductData>, k: string)
    requires k in c.rows && k !in SkuSet(b)
    ensures k in UpsertAll(c, b).rows && UpsertAll(c, b).rows[k] == c.rows[k]
    decreases |b|
  {
    if b != [] {
      SkuSetCons(b);
      UpsertLeavesOthers(UpsertRow(c, b[0]), b[1..], k);
    }
  }

  /**
   * For a batch without repeated skus, each record's row ends up with the record's
   * name and description; an existing row keeps its id, sku and active flag, a new
   * row gets the record's sku and active flag and an id at or above the old serial.
   */
  lemma {:induction false} UpsertEffect(c: Catalog, b: seq<ProductData>, i: nat)
    requires Distinct(b) && i < |b|
    ensures var r := UpsertAll(c, b); var d := b[i];
      && d.sku in r.rows
      && (d.sku in c.rows ==> r.rows[d.sku] == c.rows[d.sku].(name := d.name, description := d.description))
      && (d.sku !in c.rows ==>
            r.rows[d.sku] == Product(r.rows[d.sku].id, d.sku, d.name, d.description, d.active)
            && c.nextId <= r.rows[d.sku].id < r.nextId)
    decreases |b|
  {
    var c1 := UpsertRow(c, b[0]);
    var t := b[1..];
    UpsertKeys(c1, t);
    if i == 0 {
      HeadNotInTail(b);
      UpsertLeavesOthers(c1, t, b[0].sku);
    } else {
      assert Distinct(t) by {
        forall p, q | 0 <= p < q < |t| ensures t[p].sku != t[q].sku {
          assert t[p] == b[p + 1] && t[q] == b[q + 1];
        }
      }
      assert t[i - 1] == b[i];
      assert b[0].sku != b[i].sku;
      UpsertEffect(c1, t, i - 1);
    }
  }

  /** A single row keeps the table's constraints. */
  lemma UpsertRowValid(c: Catalog, d: ProductData)
    requires CatalogValid(c) && IsLower(d.sku) && |d.sku| <= SKU_MAX && |d.name| <= PRODUCT_NAME_MAX
    ensures CatalogValid(UpsertRow(c, d))
  {
  }

  /** A batch the statement accepts keeps the table's constraints. */
  lemma {:induction false} UpsertValid(c: Catalog, b: seq<ProductData>)
    requires CatalogValid(c) && AllLower(b) && AllFit(b)
    ensures CatalogValid(UpsertAll(c, b))
    decreases |b|
  {
    if b != [] {
      UpsertRowValid(c, b[0]);
      var t := b[1..];
      assert AllLower(t) && AllFit(t) by {
        forall i | 0 <= i < |t| ensures IsLower(t[i].sku) && |t[i].sku| <= SKU_MAX && |t[i].name| <= PRODUCT_NAME_MAX {
          assert t[i] == b[i + 1];
        }
      }
      UpsertValid(UpsertRow(c, b[0]), t);
    }
  }

  /** Without repeats a batch has as many skus as records. */
  lemma {:induction false} DistinctSkuCount(b: seq<ProductData>)
    requires Distinct(b)
    ensures |SkuSet(b)| == |b|
    decreases |b|
  {
    if b != [] {
      var t := b[1..];
      SkuSetCons(b);
      assert Distinct(t) by {
        forall p, q | 0 <= p < q < |t| ensures t[p].sku != t[q].sku {
          assert t[p] == b[p + 1] && t[q] == b[q + 1];
        }
      }
      DistinctSkuCount(t);
      HeadNotInTail(b);
    }
  }

  /** On a valid table the existing-count query finds exactly the batch skus already stored. */
  lemma ExistingAreStoredBatchSkus(c: Catalog, b: seq<ProductData>)
    requires CatalogValid(c)
    ensures ExistingSkus(c, b) == c.rows.Keys * SkuSet(b)
  {
    forall k | k in c.rows ensures Lower(c.rows[k].sku) == k {
      assert IsLower(k);
    }
  }

  /**
   * The reported counts are accurate for a batch the statement accepts: "updated"
   * is at most the batch size, and the table grows by exactly the "created" count.
   */
  lemma UpsertCounts(c: Catalog, b: seq<ProductData>)
    requires CatalogValid(c) && Distinct(b)
    ensures ExistingCount(c, b) <= |b|
    ensures |UpsertAll(c, b).rows| == |c.rows| + (|b| - ExistingCount(c, b))
  {
    var r := UpsertAll(c, b);
    ExistingAreStoredBatchSkus(c, b);
    DistinctSkuCount(b);
    UpsertKeys(c, b);
    SetSizes(c.rows.Keys, SkuSet(b));
    assert |r.rows| == |r.rows.Keys|;
    assert |c.rows| == |c.rows.Keys|;
  }

  /** Upserting the same batch twice leaves the rows as one upsert left them; only the serial moves on. */
  lemma UpsertIdempotent(c: Catalog, b: seq<ProductData>)
    requires Distinct(b)
    ensures UpsertAll(UpsertAll(c, b), b).rows == UpsertAll(c, b).rows
    ensures UpsertAll(UpsertAll(c, b), b).nextId == UpsertAll(c, b).nextId + |b|
  {
    var c1 := UpsertAll(c, b);
    var c2 := UpsertAll(c1, b);
    UpsertKeys(c, b);
    UpsertKeys(c1, b);
    forall k | k in c1.rows ensures c2.rows[k] == c1.rows[k] {
      if k in SkuSet(b) {
        var i :| 0 <= i < |b| && b[i].sku == k;
        UpsertEffect(c, b, i);
        UpsertEffect(c1, b, i);
      } else {
        UpsertLeavesOthers(c1, b, k);
      }
    }
    assert c2.rows == c1.rows;
  }

  /** Importing the same rows again reports every one of them as updated. */
  lemma ReimportIsAllUpdates(c: Catalog, b: seq<ProductData>)
    requires CatalogValid(c) && AllLower(b) && AllFit(b) && Distinct(b)
    ensures ExistingCount(UpsertAll(c, b), b) == |b|
  {
    var c1 := UpsertAll(c, b);
    UpsertValid(c, b);
    UpsertKeys(c, b);
    ExistingAreStoredBatchSkus(c1, b);
    assert c1.rows.Keys * SkuSet(b) == SkuSet(b);
    DistinctSkuCount(b);
  }

  /** The counters the loop keeps: rows processed, created and updated so far. */
  datatype Progress = Progress(processed: int, created: int, updated: int)

  /** created + updated == processed. */
  predicate Balanced(p: Progress) {
    p.created + p.updated == p.processed
  }

  /**
   * The batch loop's trace: the table, the counters, the counters written to the
   * job after each committed batch, the counters published after each FULL batch,
   * and the database error that stopped the loop, if any.
   */
  datatype Replay = Replay(
    cat: Catalog,
    tally: Progress,
    checkpoints: seq<Progress>,
    snaps: seq<Progress>,
    error: Option<DbError>)

  /** Nothing committed, counted, written or published yet. */
  function Start(c: Catalog): Replay {
    Replay(c, Progress(0, 0, 0), [], [], None)
  }

  /**
   * One batch: the statement either fails (and the loop stops) or commits, the
   * counters grow by the batch's created and updated counts, the job is updated,
   * and a full batch is also published.
   */
  function Step(r: Replay, b: seq<ProductData>): Replay {
    match FirstRejection(b, {})
    case Some(e) => r.(error := Some(e))
    case None =>
      var existing := ExistingCount(r.cat, b);
      var t := Progress(r.tally.processed + |b|, r.tally.created + (|b| - existing), r.tally.updated + existing);
      Replay(UpsertAll(r.cat, b), t, r.checkpoints + [t], if |b| >= BATCH_SIZE then r.snaps + [t] else r.snaps, None)
  }

  /** The batches in order, stopping at the first database error. */
  function Commit(r: Replay, bs: seq<seq<ProductData>>): Replay
    decreases |bs|
  {
    if bs == [] || r.error.Some? then r else Commit(Step(r, bs[0]), bs[1..])
  }

  lemma {:induction false} CommitAppend(r: Replay, xs: seq<seq<ProductData>>, ys: seq<seq<ProductData>>)
    ensures Commit(r, xs + ys) == Commit(Commit(r, xs), ys)
    decreases |xs|
  {
    if xs == [] {
      assert xs + ys == ys;
    } else if r.error.None? {
      assert (xs + ys)[1..] == xs[1..] + ys;
      CommitAppend(Step(r, xs[0]), xs[1..], ys);
    } else {
      assert Commit(r, ys) == r;
    }
  }

  /** Committing one more batch is one more step, unless an error already stopped the loop. */
  lemma CommitSnoc(r: Replay, bs: seq<seq<ProductData>>, b: seq<ProductData>)
    ensures Commit(r, bs + [b]) == if Commit(r, bs).error.Some? then Commit(r, bs) else Step(Commit(r, bs), b)
  {
    CommitAppend(r, bs, [b]);
  }

  /** The loop's invariants: a valid table, non-negative and balanced counters, every checkpoint balanced. */
  ghost predicate Sound(r: Replay) {
    && CatalogValid(r.cat)
    && Balanced(r.tally) && 0 <= r.tally.created && 0 <= r.tally.updated
    && (forall i :: 0 <= i < |r.checkpoints| ==> Balanced(r.checkpoints[i]))
    && (forall i :: 0 <= i < |r.snaps| ==> Balanced(r.snaps[i]))
  }

  /** The last checkpoint written is the current tally (and nothing is counted before the first). */
  ghost predicate Tracked(r: Replay) {
    if r.checkpoints == [] then r.tally == Progress(0, 0, 0) else r.checkpoints[|r.checkpoints| - 1] == r.tally
  }

  /** The job row always ends up holding the loop's final counters, once any batch committed. */
  lemma {:induction false} CommitTracked(r: Replay, bs: seq<seq<ProductData>>)
    requires Tracked(r)
    ensures Tracked(Commit(r, bs))
    decreases |bs|
  {
    if bs != [] && r.error.None? {
      CommitTracked(Step(r, bs[0]), bs[1..]);
    }
  }

  /** Every batch made of normalised rows. */
  predicate AllBatchesLower(bs: seq<seq<ProductData>>) {
    forall i :: 0 <= i < |bs| ==> AllLower(bs[i])
  }

  /** One committed batch keeps the invariants and grows the table by its created count. */
  lemma StepSound(r: Replay, b: seq<ProductData>)
    requires Sound(r) && r.error.None? && AllLower(b)
    ensures Sound(Step(r, b))
    ensures Step(r, b).error.None? ==>
      |Step(r, b).cat.rows| - |r.cat.rows| == Step(r, b).tally.created - r.tally.created
  {
    NoRejectionIff(b, {});
    if FirstRejection(b, {}).None? {
      UpsertValid(r.cat, b);
      UpsertCounts(r.cat, b);
    }
  }

  /**
   * The whole loop keeps the invariants; the table grows by exactly the created
   * count; and, when no batch fails, every row of every batch is counted once.
   */
  lemma {:induction false} CommitSound(r: Replay, bs: seq<seq<ProductData>>)
    requires Sound(r) && r.error.None? && AllBatchesLower(bs)
    ensures Sound(Commit(r, bs))
    ensures |Commit(r, bs).cat.rows| - |r.cat.rows| == Commit(r, bs).tally.created - r.tally.created
    ensures Commit(r, bs).error.None? ==> Commit(r, bs).tally.processed == r.tally.processed + |Flatten(bs)|
    decreases |bs|
  {
    if bs != [] {
      StepSound(r, bs[0]);
      var r1 := Step(r, bs[0]);
      if r1.error.None? {
        assert AllBatchesLower(bs[1..]) by {
          forall i | 0 <= i < |bs[1..]| ensures AllLower(bs[1..][i]) {
            assert bs[1..][i] == bs[i + 1];
          }
        }
        CommitSound(r1, bs[1..]);
      }
    }
  }

  /** The batches cut from normalised rows are normalised. */
  lemma BatchesLower(s: seq<ProductData>)
    requires AllLower(s)
    ensures AllBatchesLower(Batches(s))
  {
    BatchesShape(s);
    FlattenLower(Batches(s));
  }

  lemma {:induction false} FlattenLower(bs: seq<seq<ProductData>>)
    requires AllLower(Flatten(bs))
    ensures AllBatchesLower(bs)
    decreases |bs|
  {
    if bs != [] {
      var f := Flatten(bs);
      assert f == bs[0] + Flatten(bs[1..]);
      assert AllLower(bs[0]) by {
        forall i | 0 <= i < |bs[0]| ensures IsLower(bs[0][i].sku) {
          assert bs[0][i] == f[i];
        }
      }
      assert AllLower(Flatten(bs[1..])) by {
        forall i | 0 <= i < |Flatten(bs[1..])| ensures IsLower(Flatten(bs[1..])[i].sku) {
          assert Flatten(bs[1..])[i] == f[|bs[0]| + i];
        }
      }
      FlattenLower(bs[1..]);
      forall i | 0 <= i < |bs| ensures AllLower(bs[i]) {
        if i > 0 { assert bs[i] == bs[1..][i - 1]; }
      }
    }
  }

  /** Where the last full batch ends among n kept rows. */
  function FullPart(n: nat): nat {
    n - n % BATCH_SIZE
  }

  lemma FullPartFacts(n: nat)
    ensures FullPart(n) % BATCH_SIZE == 0 && FullPart(n) <= n && n - FullPart(n) == n % BATCH_SIZE < BATCH_SIZE
  {
  }

  lemma FullPartCovers(a: nat, b: nat)
    requires a % BATCH_SIZE == 0 && a <= b
    ensures a <= FullPart(b)
  {
  }

  /**
   * The batches the loop commits: all of them, or, when a row raised, only the
   * full batches flushed before that row was read.
   */
  function Attempted(ing: Ingested): seq<seq<ProductData>> {
    if ing.crashed then Batches(ing.kept[..FullPart(|ing.kept|)]) else Batches(ing.kept)
  }

  /** The batch loop over a whole file, from table `c`. */
  function ImportRun(c: Catalog, rows: seq<RawRow>): Replay {
    Commit(Start(c), Attempted(Ingest(rows)))
  }

  /** How `process_csv_content` ends for a job that exists: the first database error, else the row that raised, else normally. */
  function ImportOutcome(c: Catalog, rows: seq<RawRow>): Result<(), ImportError> {
    var run := ImportRun(c, rows);
    if run.error.Some? then Err(Database(run.error.value))
    else if Ingest(rows).crashed then Err(FieldMissing("description"))
    else Ok(())
  }

  /** The job row after `update_progress` wrote counters `p`. */
  function WithProgress(j: UploadJob, p: Progress): UploadJob {
    j.(processedRows := p.processed, createdRows := p.created, updatedRows := p.updated)
  }

  /** The jobs table after the checkpoints were written: the job carries the last one. */
  function JobsAfter(jobs: map<string, UploadJob>, jobId: string, cps: seq<Progress>): map<string, UploadJob>
    requires jobId in jobs
  {
    if cps == [] then jobs else jobs[jobId := WithProgress(jobs[jobId], cps[|cps| - 1])]
  }

  /** The "processing" snapshots published, one per full batch, against the counted total. */
  function Announce(jobId: string, total: int, snaps: seq<Progress>): seq<Snapshot>
    decreases |snaps|
  {
    if snaps == [] then []
    else
      var p := snaps[|snaps| - 1];
      Announce(jobId, total, snaps[..|snaps| - 1]) + [Snapshot(jobId, Processing, p.processed, total, p.created, p.updated, None)]
  }

  /** The closing snapshot of a run that read `n` rows. */
  function CompletedSnapshot(jobId: string, n: int, p: Progress): Snapshot {
    Snapshot(jobId, Completed, n, n, p.created, p.updated, None)
  }

  /**
   * A whole import on a valid table keeps the table valid and the counters
   * balanced; the table grows by exactly the created count; and when it ends
   * normally every kept row was processed once, so created + updated is the
   * number of kept rows.
   */
  lemma ImportTotals(c: Catalog, rows: seq<RawRow>)
    requires CatalogValid(c)
    ensures var run := ImportRun(c, rows);
      && Sound(run)
      && |run.cat.rows| == |c.rows| + run.tally.created
      && (ImportOutcome(c, rows).Ok? ==>
            run.tally.processed == |Ingest(rows).kept| == run.tally.created + run.tally.updated)
  {
    var ing := Ingest(rows);
    IngestAllLower(rows);
    var s := if ing.crashed then ing.kept[..FullPart(|ing.kept|)] else ing.kept;
    assert AllLower(s) by {
      forall i | 0 <= i < |s| ensures IsLower(s[i].sku) {
        assert s[i] == ing.kept[i];
      }
    }
    BatchesLower(s);
    BatchesShape(s);
    CommitSound(Start(c), Batches(s));
  }

  /**
   * There is no de-duplication within a batch: a file of at most one batch whose
   * kept rows repeat a sku fails with a database error and writes nothing.
   */
  lemma RepeatedSkuFailsImport(c: Catalog, rows: seq<RawRow>)
    requires !Ingest(rows).crashed && |Ingest(rows).kept| <= BATCH_SIZE
    requires !Distinct(Ingest(rows).kept)
    ensures ImportOutcome(c, rows).Err? && ImportOutcome(c, rows).error.Database?
    ensures ImportRun(c, rows).cat == c && ImportRun(c, rows).checkpoints == [] && ImportRun(c, rows).snaps == []
  {
    var k := Ingest(rows).kept;
    OneBatch(k);
    NoRejectionIff(k, {});
    assert Commit(Start(c), [k]) == Commit(Step(Start(c), k), []);
  }

  lemma SliceLower(s: seq<ProductData>, f: nat)
    requires AllLower(s) && f <= |s|
    ensures AllLower(s[f..])
  {
    forall i | 0 <= i < |s| - f ensures IsLower(s[f..][i].sku) {
      assert s[f..][i] == s[f + i];
    }
  }

  /** A full batch followed by the next row closes the batch: the loop flushes. */
  lemma FlushShape(k: seq<ProductData>, d: ProductData)
    requires |k| % BATCH_SIZE == BATCH_SIZE - 1
    ensures FullPart(|k + [d]|) == |k + [d]|
    ensures Batches(k + [d]) == Batches(k[..FullPart(|k|)]) + [k[FullPart(|k|)..] + [d]]
  {
    var f := FullPart(|k|);
    assert f % BATCH_SIZE == 0 && |k[f..] + [d]| == BATCH_SIZE by {
      FullPartFacts(|k|);
    }
    assert FullPart(|k + [d]|) == |k + [d]| by {
      FullPartOfFull(f, f + BATCH_SIZE);
    }
    assert k + [d] == k[..f] + (k[f..] + [d]);
    BatchesAppendFull(k[..f], k[f..] + [d]);
    OneBatch(k[f..] + [d]);
  }

  lemma FullPartOfFull(f: nat, n: nat)
    requires f % BATCH_SIZE == 0 && n == f + BATCH_SIZE
    ensures n % BATCH_SIZE == 0 && FullPart(n) == n
  {
  }

  /** A row that does not complete a batch only extends the open one. */
  lemma NoFlushShape(k: seq<ProductData>, d: ProductData)
    requires |k| % BATCH_SIZE < BATCH_SIZE - 1
    ensures FullPart(|k + [d]|) == FullPart(|k|)
    ensures (k + [d])[..FullPart(|k|)] == k[..FullPart(|k|)]
    ensures (k + [d])[FullPart(|k|)..] == k[FullPart(|k|)..] + [d]
  {
    FullPartFacts(|k|);
    FullPartFacts(|k| + 1);
  }

  /** All kept rows are the full batches and then the open one, if not empty. */
  lemma FinalBatches(k: seq<ProductData>)
    ensures Batches(k) == Batches(k[..FullPart(|k|)]) + (if FullPart(|k|) < |k| then [k[FullPart(|k|)..]] else [])
  {
    var f := FullPart(|k|);
    FullPartFacts(|k|);
    assert k == k[..f] + k[f..];
    BatchesAppendFull(k[..f], k[f..]);
    if f < |k| {
      OneBatch(k[f..]);
    } else {
      assert k[f..] == [];
    }
  }

  /** The batches flushed by row i are the first batches the whole run attempts. */
  lemma {:induction false} AttemptedExtends(rows: seq<RawRow>, i: nat)
    requires i <= |rows| && !Ingest(rows[..i]).crashed
    requires |Ingest(rows[..i]).kept| % BATCH_SIZE == 0
    ensures var a := Attempted(Ingest(rows)); var bk := Batches(Ingest(rows[..i]).kept);
      |bk| <= |a| && a == bk + a[|bk|..]
  {
    IngestPrefix(rows, i);
    SplitAtFull(Ingest(rows[..i]).kept, Ingest(rows).kept, Ingest(rows).crashed);
  }

  lemma SplitAtFull(k: seq<ProductData>, kf: seq<ProductData>, crashed: bool)
    requires k <= kf && |k| % BATCH_SIZE == 0
    ensures var s := if crashed then kf[..FullPart(|kf|)] else kf;
      |k| <= |s| && Batches(s) == Batches(k) + Batches(s[|k|..])
  {
    var s := if crashed then kf[..FullPart(|kf|)] else kf;
    FullPartFacts(|kf|);
    FullPartCovers(|k|, |kf|);
    assert s == k + s[|k|..];
    BatchesAppendFull(k, s[|k|..]);
  }

  /** A database error on a batch flushed after row i ends the whole run there. */
  lemma ErrorIsFinal(c: Catalog, rows: seq<RawRow>, i: nat)
    requires i <= |rows| && !Ingest(rows[..i]).crashed
    requires |Ingest(rows[..i]).kept| % BATCH_SIZE == 0
    requires Commit(Start(c), Batches(Ingest(rows[..i]).kept)).error.Some?
    ensures ImportRun(c, rows) == Commit(Start(c), Batches(Ingest(rows[..i]).kept))
  {
    var bk := Batches(Ingest(rows[..i]).kept);
    var a := Attempted(Ingest(rows));
    AttemptedExtends(rows, i);
    CommitAppend(Start(c), bk, a[|bk|..]);
  }

  /**
   * What one `upsert_batch` call does to catalog `c`: nothing for an empty batch,
   * the statement's rejection, or the upsert with (created, updated) counts.
   */
  function UpsertOutcome(c: Catalog, batch: seq<ProductData>): (Result<(int, int), DbError>, Catalog) {
    if batch == [] then (Ok((0, 0)), c)
    else match FirstRejection(batch, {})
      case Some(e) => (Err(e), c)
      case None =>
        var existing := ExistingCount(c, batch);
        (Ok((|batch| - existing, existing)), UpsertAll(c, batch))
  }

  /** `upsert_batch`: one multi-row upsert, returning (created, updated). */
  method UpsertBatch(db: Store, batch: seq<ProductData>) returns (r: Result<(int, int), DbError>)
    requires CatalogValid(db.catalog) && AllLower(batch)
    modifies db`catalog
    ensures CatalogValid(db.catalog)
    ensures r == UpsertOutcome(old(db.catalog), batch).0 && db.catalog == UpsertOutcome(old(db.catalog), batch).1
  {
    if batch == [] {
      return Ok((0, 0));
    }
    var existing := ExistingCount(db.catalog, batch);
    var rejection := FirstRejection(batch, {});
    if rejection.Some? {
      return Err(rejection.value);
    }
    NoRejectionIff(batch, {});
    UpsertValid(db.catalog, batch);
    db.catalog := UpsertAll(db.catalog, batch);
    return Ok((|batch| - existing, existing));
  }

  /**
   * An accepted batch splits into created and updated rows, and the table grows
   * by exactly the created ones; a rejected batch leaves the table as it was.
   */
  lemma UpsertOutcomeCounts(c: Catalog, batch: seq<ProductData>)
    requires CatalogValid(c) && AllLower(batch)
    ensures var (r, c') := UpsertOutcome(c, batch);
      && (r.Err? ==> c' == c)
      && (r.Ok? ==>
        && 0 <= r.value.0 && 0 <= r.value.1 && r.value.0 + r.value.1 == |batch|
        && |c'.rows| == |c.rows| + r.value.0)
  {
    if batch != [] && FirstRejection(batch, {}).None? {
      NoRejectionIff(batch, {});
      UpsertCounts(c, batch);
    }
  }

  /** `update_progress`: write the counters to the job, when it exists. */
  method UpdateProgress(db: Store, jobId: string, processed: int, created: int, updated: int)
    requires JobsValid(db.jobs)
    modifies db`jobs
    ensures JobsValid(db.jobs)
    ensures jobId in old(db.jobs) ==>
      db.jobs == old(db.jobs)[jobId := WithProgress(old(db.jobs)[jobId], Progress(processed, created, updated))]
    ensures jobId !in old(db.jobs) ==> db.jobs == old(db.jobs)
  {
    if jobId in db.jobs {
      db.jobs := db.jobs[jobId := WithProgress(db.jobs[jobId], Progress(processed, created, updated))];
    }
  }

  /** `publish_progress`: one message on the job's channel (a publish failure is only logged). */
  method PublishProgress(db: Store, jobId: string, processed: int, total: int, created: int, updated: int, status: JobStatus)
    modifies db`published
    ensures db.published == old(db.published) + [Snapshot(jobId, status, processed, total, created, updated, None)]
  {
    db.published := db.published + [Snapshot(jobId, status, processed, total, created, updated, None)];
  }

  /** The trace of the full batches among the kept rows `k`. */
  ghost function Trace(c0: Catalog, k: seq<ProductData>): Replay {
    Commit(Start(c0), Batches(k[..FullPart(|k|)]))
  }

  /**
   * The loop's state after the kept rows `k` without a raised row or a database
   * error: the open batch is what follows the last full batch, the committed full
   * batches are in the table, and the counters, job row and channel reflect them.
   */
  ghost predicate Reached(
    db: Store, c0: Catalog, jobs0: map<string, UploadJob>, pub0: seq<Snapshot>, jobId: string,
    k: seq<ProductData>, batch: seq<ProductData>, total: int, created: int, updated: int)
    reads db`catalog, db`jobs, db`published, db`webhooks, db`nextWebhookId
  {
    && jobId in jobs0
    && total == |k| && batch == k[FullPart(|k|)..] && AllLower(k)
    && Trace(c0, k).error.None?
    && Reflects(db, jobs0, pub0, jobId, jobs0[jobId].totalRows, Trace(c0, k))
    && created == Trace(c0, k).tally.created && updated == Trace(c0, k).tally.updated
    && Trace(c0, k).tally.processed == FullPart(|k|)
    && db.Valid()
  }

  /** The loop invariant after reading rows[..i]. */
  ghost predicate LoopInv(
    db: Store, c0: Catalog, jobs0: map<string, UploadJob>, pub0: seq<Snapshot>, jobId: string,
    rows: seq<RawRow>, i: nat, batch: seq<ProductData>, total: int, created: int, updated: int)
    reads db`catalog, db`jobs, db`published, db`webhooks, db`nextWebhookId
  {
    && i <= |rows|
    && !Ingest(rows[..i]).crashed
    && Reached(db, c0, jobs0, pub0, jobId, Ingest(rows[..i]).kept, batch, total, created, updated)
  }

  /** The state `process_csv_content` leaves behind, ending with `r`: the batch loop's trace over the file. */
  ghost predicate Done(
    db: Store, c0: Catalog, jobs0: map<string, UploadJob>, pub0: seq<Snapshot>, jobId: string,
    rows: seq<RawRow>, r: Result<(), ImportError>)
    reads db`catalog, db`jobs, db`published
    requires jobId in jobs0
  {
    var run := ImportRun(c0, rows);
    && r == ImportOutcome(c0, rows)
    && db.catalog == run.cat
    && db.jobs == JobsAfter(jobs0, jobId, run.checkpoints)
    && db.published == pub0 + Announce(jobId, jobs0[jobId].totalRows, run.snaps)
         + (if r.Ok? then [CompletedSnapshot(jobId, |Ingest(rows).kept|, run.tally)] else [])
  }

  /** The store reflects the trace `rep` of the batches committed so far. */
  ghost predicate Reflects(
    db: Store, jobs0: map<string, UploadJob>, pub0: seq<Snapshot>, jobId: string, totalRows: int, rep: Replay)
    reads db`catalog, db`jobs, db`published
    requires jobId in jobs0
  {
    && db.catalog == rep.cat
    && db.jobs == JobsAfter(jobs0, jobId, rep.checkpoints)
    && db.published == pub0 + Announce(jobId, totalRows, rep.snaps)
  }

  /** The upsert of one batch, as one step of the trace from `pre`. */
  method CommitStep(db: Store, ghost pre: Replay, batch: seq<ProductData>) returns (res: Result<(int, int), DbError>)
    requires CatalogValid(db.catalog) && pre.error.None? && db.catalog == pre.cat && AllLower(batch) && batch != []
    modifies db`catalog
    ensures CatalogValid(db.catalog)
    ensures res.Err? ==> Step(pre, batch) == pre.(error := Some(res.error)) && db.catalog == old(db.catalog)
    ensures res.Ok? ==>
      var t := Progress(pre.tally.processed + |batch|, pre.tally.created + res.value.0, pre.tally.updated + res.value.1);
      Step(pre, batch) == Replay(db.catalog, t, pre.checkpoints + [t], if |batch| >= BATCH_SIZE then pre.snaps + [t] else pre.snaps, None)
  {
    res := UpsertBatch(db, batch);
    StepIsUpsert(pre, batch, res, db.catalog);
  }

  /** A step of the trace is one `upsert_batch` call, its counts added to the tally. */
  lemma StepIsUpsert(pre: Replay, batch: seq<ProductData>, res: Result<(int, int), DbError>, cat: Catalog)
    requires pre.error.None? && batch != []
    requires res == UpsertOutcome(pre.cat, batch).0 && cat == UpsertOutcome(pre.cat, batch).1
    ensures res.Err? ==> Step(pre, batch) == pre.(error := Some(res.error)) && cat == pre.cat
    ensures res.Ok? ==>
      var t := Progress(pre.tally.processed + |batch|, pre.tally.created + res.value.0, pre.tally.updated + res.value.1);
      Step(pre, batch) == Replay(cat, t, pre.checkpoints + [t], if |batch| >= BATCH_SIZE then pre.snaps + [t] else pre.snaps, None)
  {
  }

  /**
   * Upsert a batch and write its checkpoint to the job row, as the loop does for
   * every batch; a full batch also sends the "processing" snapshot.
   */
  method Checkpoint(
    db: Store, ghost jobs0: map<string, UploadJob>, ghost pub0: seq<Snapshot>, ghost pre: Replay,
    jobId: string, totalRows: int, batch: seq<ProductData>, total: int, created: int, updated: int)
    returns (res: Result<(int, int), DbError>)
    requires CatalogValid(db.catalog) && JobsValid(db.jobs) && jobId in jobs0 && pre.error.None?
    requires Reflects(db, jobs0, pub0, jobId, totalRows, pre)
    requires total == pre.tally.processed + |batch|
    requires created == pre.tally.created && updated == pre.tally.updated
    requires AllLower(batch) && 0 < |batch| <= BATCH_SIZE
    modifies db`catalog, db`jobs, db`published
    ensures CatalogValid(db.catalog) && JobsValid(db.jobs)
    ensures Reflects(db, jobs0, pub0, jobId, totalRows, Step(pre, batch))
    ensures res.Err? <==> Step(pre, batch).error.Some?
    ensures res.Err? ==> Step(pre, batch).error == Some(res.error)
    ensures res.Ok? ==>
      created + res.value.0 == Step(pre, batch).tally.created && updated + res.value.1 == Step(pre, batch).tally.updated
  {
    res := CommitStep(db, pre, batch);
    if res.Ok? {
      var t := Progress(total, created + res.value.0, updated + res.value.1);
      ghost var post := Replay(db.catalog, t, pre.checkpoints + [t], if |batch| == BATCH_SIZE then pre.snaps + [t] else pre.snaps, None);
      assert Step(pre, batch) == post;
      WriteCheckpoint(db, jobs0, pub0, jobId, totalRows, pre.checkpoints, pre.snaps, t, |batch| == BATCH_SIZE);
      assert Reflects(db, jobs0, pub0, jobId, totalRows, post);
    }
  }

  /**
   * Write the counters `t` to the job row and, after a full batch, publish
   * them: the job row and the channel become those of the trace one batch longer.
   */
  method WriteCheckpoint(
    db: Store, ghost jobs0: map<string, UploadJob>, ghost pub0: seq<Snapshot>, jobId: string, totalRows: int,
    ghost cps: seq<Progress>, ghost snaps: seq<Progress>, t: Progress, full: bool)
    requires JobsValid(db.jobs) && jobId in jobs0
    requires db.jobs == JobsAfter(jobs0, jobId, cps) && db.published == pub0 + Announce(jobId, totalRows, snaps)
    modifies db`jobs, db`published
    ensures JobsValid(db.jobs)
    ensures db.jobs == JobsAfter(jobs0, jobId, cps + [t])
    ensures db.published == pub0 + Announce(jobId, totalRows, if full then snaps + [t] else snaps)
  {
    ghost var jobs1, pub1 := db.jobs, db.published;
    assert jobId in jobs1;
    UpdateProgress(db, jobId, t.processed, t.created, t.updated);
    assert db.jobs == JobsAfter(jobs0, jobId, cps + [t]) by {
      JobsAfterSnoc(jobs0, jobId, cps, t);
    }
    if full {
      PublishProgress(db, jobId, t.processed, totalRows, t.created, t.updated, Processing);
      assert db.published == pub0 + Announce(jobId, totalRows, snaps + [t]) by {
        var a := Announce(jobId, totalRows, snaps);
        var snap := Snapshot(jobId, Processing, t.processed, totalRows, t.created, t.updated, None);
        AnnounceSnoc(jobId, totalRows, snaps, t);
        assert (pub0 + a) + [snap] == pub0 + (a + [snap]);
      }
    }
  }

  lemma JobsAfterSnoc(jobs: map<string, UploadJob>, jobId: string, cps: seq<Progress>, t: Progress)
    requires jobId in jobs
    ensures JobsAfter(jobs, jobId, cps + [t])
      == JobsAfter(jobs, jobId, cps)[jobId := WithProgress(JobsAfter(jobs, jobId, cps)[jobId], t)]
  {
  }

  lemma AnnounceSnoc(jobId: string, total: int, snaps: seq<Progress>, p: Progress)
    ensures Announce(jobId, total, snaps + [p])
      == Announce(jobId, total, snaps) + [Snapshot(jobId, Processing, p.processed, total, p.created, p.updated, None)]
  {
    assert (snaps + [p])[..|snaps|] == snaps;
  }

  lemma IngestSkip(rows: seq<RawRow>, i: nat)
    requires i < |rows| && !Keeps(rows[i])
    ensures Ingest(rows[..i + 1]) == Ingest(rows[..i])
  {
    assert rows[..i + 1][..i] == rows[..i];
  }

  lemma IngestCrash(rows: seq<RawRow>, i: nat)
    requires i < |rows| && !Ingest(rows[..i]).crashed && Keeps(rows[i]) && DescriptionMissing(rows[i])
    ensures Ingest(rows) == Ingested(Ingest(rows[..i]).kept, true)
  {
    assert rows[..i + 1][..i] == rows[..i];
    IngestStopsAtCrash(rows, i + 1);
  }

  lemma IngestNext(rows: seq<RawRow>, i: nat)
    requires i < |rows| && !Ingest(rows[..i]).crashed && Keeps(rows[i]) && !DescriptionMissing(rows[i])
    ensures Ingest(rows[..i + 1]) == Ingested(Ingest(rows[..i]).kept + [Normalise(rows[i])], false)
    ensures IsLower(Normalise(rows[i]).sku)
  {
    assert rows[..i + 1][..i] == rows[..i];
    NormalisedShape(rows[i]);
  }

  /** A record that does not fill the open batch leaves the trace as it was. */
  lemma TraceNoFlush(c0: Catalog, k: seq<ProductData>, d: ProductData)
    requires |k| % BATCH_SIZE < BATCH_SIZE - 1
    ensures Trace(c0, k + [d]) == Trace(c0, k)
    ensures FullPart(|k + [d]|) == FullPart(|k|)
    ensures (k + [d])[FullPart(|k + [d]|)..] == k[FullPart(|k|)..] + [d]
  {
    NoFlushShape(k, d);
  }

  /** A record that fills the open batch adds that batch to the trace. */
  lemma TraceFlush(c0: Catalog, k: seq<ProductData>, d: ProductData)
    requires |k| % BATCH_SIZE == BATCH_SIZE - 1 && Trace(c0, k).error.None?
    ensures Commit(Start(c0), Batches(k + [d])) == Step(Trace(c0, k), k[FullPart(|k|)..] + [d])
    ensures Trace(c0, k + [d]) == Commit(Start(c0), Batches(k + [d]))
    ensures |k + [d]| % BATCH_SIZE == 0 && (k + [d])[FullPart(|k + [d]|)..] == []
    ensures |k[FullPart(|k|)..] + [d]| == BATCH_SIZE && FullPart(|k + [d]|) == FullPart(|k|) + BATCH_SIZE
  {
    FlushShape(k, d);
    FullPartFacts(|k|);
    CommitSnoc(Start(c0), Batches(k[..FullPart(|k|)]), k[FullPart(|k|)..] + [d]);
    assert (k + [d])[..FullPart(|k + [d]|)] == k + [d];
  }

  /**
   * Append one normalised record to the open batch and, when that fills it,
   * upsert and checkpoint the batch. On a database error the store reflects the
   * trace that stopped at this batch.
   */
  method AddRecord(
    db: Store, ghost c0: Catalog, ghost jobs0: map<string, UploadJob>, ghost pub0: seq<Snapshot>,
    jobId: string, totalRows: int, ghost k: seq<ProductData>, d: ProductData,
    batch: seq<ProductData>, total: int, created: int, updated: int)
    returns (err: Option<DbError>, batch': seq<ProductData>, total': int, created': int, updated': int)
    requires Reached(db, c0, jobs0, pub0, jobId, k, batch, total, created, updated) && IsLower(d.sku)
    requires totalRows == jobs0[jobId].totalRows
    modifies db`catalog, db`jobs, db`published
    ensures err.None? ==> Reached(db, c0, jobs0, pub0, jobId, k + [d], batch', total', created', updated')
    ensures err.Some? ==>
      && |k + [d]| % BATCH_SIZE == 0
      && Commit(Start(c0), Batches(k + [d])).error == err
      && Reflects(db, jobs0, pub0, jobId, totalRows, Commit(Start(c0), Batches(k + [d])))
      && db.Valid()
  {
    assert |batch| == |k| % BATCH_SIZE by {
      FullPartFacts(|k|);
    }
    if |batch| + 1 < BATCH_SIZE {
      ReachedNoFlush(db, c0, jobs0, pub0, jobId, k, d, batch, total, created, updated);
      return None, batch + [d], total + 1, created, updated;
    }
    err, created', updated' := FlushBatch(db, c0, jobs0, pub0, jobId, totalRows, k, d, batch, total, created, updated);
    batch', total' := if err.None? then [] else batch + [d], total + 1;
  }

  /** The record that fills the open batch: upsert and checkpoint that batch. */
  method FlushBatch(
    db: Store, ghost c0: Catalog, ghost jobs0: map<string, UploadJob>, ghost pub0: seq<Snapshot>,
    jobId: string, totalRows: int, ghost k: seq<ProductData>, d: ProductData,
    batch: seq<ProductData>, total: int, created: int, updated: int)
    returns (err: Option<DbError>, created': int, updated': int)
    requires Reached(db, c0, jobs0, pub0, jobId, k, batch, total, created, updated) && IsLower(d.sku)
    requires totalRows == jobs0[jobId].totalRows && |k| % BATCH_SIZE == BATCH_SIZE - 1
    modifies db`catalog, db`jobs, db`published
    ensures err.None? ==> Reached(db, c0, jobs0, pub0, jobId, k + [d], [], total + 1, created', updated')
    ensures err.Some? ==>
      && |k + [d]| % BATCH_SIZE == 0
      && Commit(Start(c0), Batches(k + [d])).error == err
      && Reflects(db, jobs0, pub0, jobId, totalRows, Commit(Start(c0), Batches(k + [d])))
      && db.Valid()
  {
    var full := batch + [d];
    ghost var pre := Trace(c0, k);
    assert AllLower(full) && pre.error.None? && Reflects(db, jobs0, pub0, jobId, totalRows, pre) by {
      AllLowerSnoc(k, d);
      SliceLower(k + [d], FullPart(|k|));
      FlushShape(k, d);
      assert full == (k + [d])[FullPart(|k|)..];
    }
    var res := Checkpoint(db, jobs0, pub0, pre, jobId, totalRows, full, total + 1, created, updated);
    TraceFlush(c0, k, d);
    if res.Err? {
      return Some(res.error), created, updated;
    }
    err, created', updated' := None, created + res.value.0, updated + res.value.1;
    ReachedFlush(db, c0, jobs0, pub0, jobId, k, d, created', updated');
  }

  lemma AllLowerSnoc(k: seq<ProductData>, d: ProductData)
    requires AllLower(k) && IsLower(d.sku)
    ensures AllLower(k + [d])
  {
    assert forall i :: 0 <= i < |k| ==> (k + [d])[i] == k[i];
  }

  /** A record that leaves the open batch short of full only extends it. */
  lemma ReachedNoFlush(
    db: Store, c0: Catalog, jobs0: map<string, UploadJob>, pub0: seq<Snapshot>, jobId: string,
    k: seq<ProductData>, d: ProductData, batch: seq<ProductData>, total: int, created: int, updated: int)
    requires Reached(db, c0, jobs0, pub0, jobId, k, batch, total, created, updated) && IsLower(d.sku)
    requires |k| % BATCH_SIZE < BATCH_SIZE - 1
    ensures Reached(db, c0, jobs0, pub0, jobId, k + [d], batch + [d], total + 1, created, updated)
  {
    TraceNoFlush(c0, k, d);
    AllLowerSnoc(k, d);
  }

  /** After the checkpoint of a full batch, the loop has reached the longer prefix with an empty batch. */
  lemma ReachedFlush(
    db: Store, c0: Catalog, jobs0: map<string, UploadJob>, pub0: seq<Snapshot>, jobId: string,
    k: seq<ProductData>, d: ProductData, created: int, updated: int)
    requires jobId in jobs0 && AllLower(k) && IsLower(d.sku) && db.Valid()
    requires |k| % BATCH_SIZE == BATCH_SIZE - 1 && Trace(c0, k).error.None?
    requires Trace(c0, k).tally.processed == FullPart(|k|)
    requires var post := Step(Trace(c0, k), k[FullPart(|k|)..] + [d]);
      && post.error.None?
      && Reflects(db, jobs0, pub0, jobId, jobs0[jobId].totalRows, post)
      && created == post.tally.created && updated == post.tally.updated
    ensures Reached(db, c0, jobs0, pub0, jobId, k + [d], [], |k| + 1, created, updated)
  {
    TraceFlush(c0, k, d);
    AllLowerSnoc(k, d);
  }

  /** A row without sku or name is skipped: the loop has reached one more row with nothing changed. */
  lemma SkipKeepsLoop(
    db: Store, c0: Catalog, jobs0: map<string, UploadJob>, pub0: seq<Snapshot>,
    jobId: string, rows: seq<RawRow>, i: nat,
    batch: seq<ProductData>, total: int, created: int, updated: int)
    requires i < |rows| && LoopInv(db, c0, jobs0, pub0, jobId, rows, i, batch, total, created, updated)
    requires !Keeps(rows[i])
    ensures LoopInv(db, c0, jobs0, pub0, jobId, rows, i + 1, batch, total, created, updated)
  {
    IngestSkip(rows, i);
  }

  /** A kept row without a description column raises, leaving the store at the batches committed so far. */
  lemma CrashIsDone(
    db: Store, c0: Catalog, jobs0: map<string, UploadJob>, pub0: seq<Snapshot>,
    jobId: string, rows: seq<RawRow>, i: nat,
    batch: seq<ProductData>, total: int, created: int, updated: int)
    requires i < |rows| && LoopInv(db, c0, jobs0, pub0, jobId, rows, i, batch, total, created, updated)
    requires Keeps(rows[i]) && DescriptionMissing(rows[i])
    ensures db.Valid() && Done(db, c0, jobs0, pub0, jobId, rows, Err(FieldMissing("description")))
  {
    IngestCrash(rows, i);
  }

  /** A record whose batch the database rejects ends the run with the database error. */
  lemma AddFailedIsDone(
    db: Store, c0: Catalog, jobs0: map<string, UploadJob>, pub0: seq<Snapshot>,
    jobId: string, rows: seq<RawRow>, i: nat, e: DbError)
    requires i < |rows| && jobId in jobs0 && !Ingest(rows[..i]).crashed
    requires Keeps(rows[i]) && !DescriptionMissing(rows[i])
    requires var k := Ingest(rows[..i]).kept + [Normalise(rows[i])];
      && |k| % BATCH_SIZE == 0
      && Commit(Start(c0), Batches(k)).error == Some(e)
      && Reflects(db, jobs0, pub0, jobId, jobs0[jobId].totalRows, Commit(Start(c0), Batches(k)))
    ensures Done(db, c0, jobs0, pub0, jobId, rows, Err(Database(e)))
  {
    IngestNext(rows, i);
    ErrorIsFinal(c0, rows, i + 1);
  }

  /** One pass of the row loop: skip the row, raise on it, or add its record. */
  method ReadRow(
    db: Store, ghost c0: Catalog, ghost jobs0: map<string, UploadJob>, ghost pub0: seq<Snapshot>,
    jobId: string, totalRows: int, rows: seq<RawRow>, i: nat,
    batch: seq<ProductData>, total: int, created: int, updated: int)
    returns (stop: Option<ImportError>, batch': seq<ProductData>, total': int, created': int, updated': int)
    requires i < |rows| && LoopInv(db, c0, jobs0, pub0, jobId, rows, i, batch, total, created, updated)
    requires totalRows == jobs0[jobId].totalRows
    modifies db`catalog, db`jobs, db`published
    ensures stop.None? ==> LoopInv(db, c0, jobs0, pub0, jobId, rows, i + 1, batch', total', created', updated')
    ensures stop.Some? ==> db.Valid() && Done(db, c0, jobs0, pub0, jobId, rows, Err(stop.value))
  {
    var row := rows[i];
    stop, batch', total', created', updated' := None, batch, total, created, updated;
    if !Keeps(row) {
      SkipKeepsLoop(db, c0, jobs0, pub0, jobId, rows, i, batch, total, created, updated);
      return;
    }
    if DescriptionMissing(row) {
      CrashIsDone(db, c0, jobs0, pub0, jobId, rows, i, batch, total, created, updated);
      stop := Some(FieldMissing("description"));
      return;
    }
    var d := Normalise(row);
    IngestNext(rows, i);
    var err;
    err, batch', total', created', updated' := AddRecord(db, c0, jobs0, pub0, jobId, totalRows, Ingest(rows[..i]).kept, d, batch, total, created, updated);
    if err.Some? {
      AddFailedIsDone(db, c0, jobs0, pub0, jobId, rows, i, err.value);
      stop := Some(Database(err.value));
    }
  }

  /** Over all kept rows, the run is the trace of the full batches and then the open batch, if any. */
  lemma FinalTrace(c0: Catalog, k: seq<ProductData>)
    requires Trace(c0, k).error.None?
    ensures FullPart(|k|) < |k| ==>
      && Commit(Start(c0), Batches(k)) == Step(Trace(c0, k), k[FullPart(|k|)..])
      && 0 < |k[FullPart(|k|)..]| < BATCH_SIZE
    ensures FullPart(|k|) == |k| ==> Commit(Start(c0), Batches(k)) == Trace(c0, k)
  {
    var f := FullPart(|k|);
    var full := Batches(k[..f]);
    FinalBatches(k);
    FullPartFacts(|k|);
    if f < |k| {
      assert Batches(k) == full + [k[f..]];
      CommitSnoc(Start(c0), full, k[f..]);
    } else {
      assert Batches(k) == full + [];
      assert full + [] == full;
    }
  }

  /** After the last row: flush the open batch and publish "completed". */
  method Finish(
    db: Store, ghost c0: Catalog, ghost jobs0: map<string, UploadJob>, ghost pub0: seq<Snapshot>,
    jobId: string, totalRows: int, rows: seq<RawRow>,
    batch: seq<ProductData>, total: int, created: int, updated: int)
    returns (r: Result<(), ImportError>)
    requires LoopInv(db, c0, jobs0, pub0, jobId, rows, |rows|, batch, total, created, updated)
    requires totalRows == jobs0[jobId].totalRows
    modifies db`catalog, db`jobs, db`published
    ensures db.Valid() && Done(db, c0, jobs0, pub0, jobId, rows, r)
  {
    assert rows[..|rows|] == rows;
    ghost var k := Ingest(rows).kept;
    ghost var rep := Trace(c0, k);
    ghost var run := ImportRun(c0, rows);
    FinalTrace(c0, k);
    var c, u := created, updated;
    if |batch| > 0 {
      SliceLower(k, FullPart(|k|));
      FullPartFacts(|k|);
      var res := Checkpoint(db, jobs0, pub0, rep, jobId, totalRows, batch, total, created, updated);
      if res.Err? {
        return Err(Database(res.error));
      }
      c, u := created + res.value.0, updated + res.value.1;
    }
    assert run.error.None? && run.tally.created == c && run.tally.updated == u;
    ghost var a := Announce(jobId, totalRows, run.snaps);
    assert db.published == pub0 + a;
    PublishProgress(db, jobId, total, total, c, u, Completed);
    assert db.published == pub0 + a + [CompletedSnapshot(jobId, |k|, run.tally)];
    r := Ok(());
  }

  /**
   * `process_csv_content`: read the rows, normalise the kept ones, upsert every
   * full batch and checkpoint it (job row and "processing" snapshot), upsert the
   * remainder and checkpoint the job row, then publish "completed". The end state
   * is the batch loop's trace over the file.
   */
  method ProcessCsvContent(db: Store, jobId: string, rows: seq<RawRow>) returns (r: Result<(), ImportError>)
    requires db.Valid()
    modifies db`catalog, db`jobs, db`published
    ensures db.Valid()
    ensures jobId !in old(db.jobs) ==>
      && r == Err(JobNotFound(jobId))
      && db.catalog == old(db.catalog) && db.jobs == old(db.jobs) && db.published == old(db.published)
    ensures jobId in old(db.jobs) ==> Done(db, old(db.catalog), old(db.jobs), old(db.published), jobId, rows, r)
  {
    if jobId !in db.jobs {
      return Err(JobNotFound(jobId));
    }
    var totalRows := db.jobs[jobId].totalRows;
    ghost var c0, jobs0, pub0 := db.catalog, db.jobs, db.published;
    var batch: seq<ProductData> := [];
    var total, created, updated := 0, 0, 0;
    var i := 0;
    assert rows[..0] == [];
    assert FullPart(0) == 0;
    while i < |rows|
      invariant i <= |rows|
      invariant LoopInv(db, c0, jobs0, pub0, jobId, rows, i, batch, total, created, updated)
    {
      var stop;
      stop, batch, total, created, updated := ReadRow(db, c0, jobs0, pub0, jobId, totalRows, rows, i, batch, total, created, updated);
      if stop.Some? {
        return Err(stop.value);
      }
      i := i + 1;
    }
    r := Finish(db, c0, jobs0, pub0, jobId, totalRows, rows, batch, total, created, updated);
  }
}
