/** The drug catalogue of the Go API: the CSV import run at start-up
    (`LoadDrugsFromCSV`) and by the admin upload (`processDrugCSV`), which share one
    header rule and one row rule, and the name search behind
    `GET /v1/clinic/drugs/search`.

    The `drugs` table is a map from id (its primary key) to the row. A CSV file is the
    header record followed by the data records, each already split into fields by the
    CSV reader, or `ReadError` where the reader reported an error for that record. */
module DrugCatalog {
  import opened Options
  import opened Text

  /** A row of the `drugs` table. */
  datatype Drug = Drug(id: string, name: string, kind: string, strength: string)

  /** One result of reading a CSV record. */
  datatype Record = Fields(fields: seq<string>) | ReadError

  /** What the loader finds at the CSV path. */
  datatype CsvSource =
    | Missing                                     // os.Stat says the file does not exist
    | Unopenable                                  // os.Open fails
    | Opened(header: Record, records: seq<Record>)

  /** What the database does with the statements the loader sends: whether
      `CREATE TABLE IF NOT EXISTS` and `TRUNCATE` fail, and which data records (by their
      0-based position after the header) meet a failing upsert. */
  datatype DbFaults = DbFaults(createFails: bool, truncateFails: bool, failingUpserts: set<nat>)

  /** The column positions the header loop leaves behind; -1 means "no such column". */
  datatype Columns = Columns(nameIdx: int, idIdx: int, typeIdx: int, strengthIdx: int)

  const DefaultCsvPath := "/app/drugs.csv"
  const DefaultKind := "allopathy"
  const SearchLimit := 10

  // ----- the header rule -----

  /** A header cell is matched after trimming and lower-casing. */
  function HeaderKey(header: string): string {
    GoLower(TrimSpace(header))
  }

  /** `k` is the position of the last of the first `n` keys equal to `key`, or -1 if none
      of them is. */
  predicate LastIn(keys: seq<string>, n: nat, key: string, k: int)
    requires n <= |keys|
  {
    -1 <= k < n && (k >= 0 ==> keys[k] == key) && forall i :: k < i < n ==> keys[i] != key
  }

  function LastIndex(keys: seq<string>, key: string): (k: int)
    ensures LastIn(keys, |keys|, key, k)
  {
    if keys == [] then -1
    else if keys[|keys| - 1] == key then |keys| - 1
    else LastIndex(keys[..|keys| - 1], key)
  }

  /** Looking at one more key moves the last index to it exactly when it matches. */
  lemma LastIndexStep(keys: seq<string>, i: nat, key: string)
    requires i < |keys|
    ensures LastIndex(keys[..i + 1], key) == if keys[i] == key then i else LastIndex(keys[..i], key)
  {
    assert keys[..i + 1][..i] == keys[..i];
  }

  function HeaderKeys(headers: seq<string>): (keys: seq<string>)
    ensures |keys| == |headers|
  {
    seq(|headers|, i requires 0 <= i < |headers| => HeaderKey(headers[i]))
  }

  /** The columns a header row names: for each of the four known keys, the LAST header
      cell that matches it, so a later duplicate overrides an earlier one. */
  function ColumnsOf(headers: seq<string>): (c: Columns)
    ensures LastIn(HeaderKeys(headers), |headers|, "name", c.nameIdx)
    ensures LastIn(HeaderKeys(headers), |headers|, "id", c.idIdx)
    ensures LastIn(HeaderKeys(headers), |headers|, "type", c.typeIdx)
    ensures LastIn(HeaderKeys(headers), |headers|, "strength", c.strengthIdx)
  {
    var keys := HeaderKeys(headers);
    Columns(LastIndex(keys, "name"), LastIndex(keys, "id"),
            LastIndex(keys, "type"), LastIndex(keys, "strength"))
  }

  /** The header loop of both loaders. */
  method FindColumns(headers: seq<string>) returns (cols: Columns)
    ensures cols == ColumnsOf(headers)
    ensures LastIn(HeaderKeys(headers), |headers|, "name", cols.nameIdx)
    ensures cols.nameIdx == -1 <==> forall i :: 0 <= i < |headers| ==> HeaderKey(headers[i]) != "name"
  {
    ghost var keys := HeaderKeys(headers);
    var nameIdx, idIdx, typeIdx, strengthIdx := -1, -1, -1, -1;
    for i := 0 to |headers|
      invariant nameIdx == LastIndex(keys[..i], "name")
      invariant idIdx == LastIndex(keys[..i], "id")
      invariant typeIdx == LastIndex(keys[..i], "type")
      invariant strengthIdx == LastIndex(keys[..i], "strength")
    {
      LastIndexStep(keys, i, "name");
      LastIndexStep(keys, i, "id");
      LastIndexStep(keys, i, "type");
      LastIndexStep(keys, i, "strength");
      var h := HeaderKey(headers[i]);
      assert h == keys[i];
      if h == "name" {
        nameIdx := i;
      } else if h == "id" {
        idIdx := i;
      } else if h == "type" {
        typeIdx := i;
      } else if h == "strength" {
        strengthIdx := i;
      }
    }
    assert keys[..|headers|] == keys;
    cols := Columns(nameIdx, idIdx, typeIdx, strengthIdx);
    assert forall i :: 0 <= i < |headers| ==> keys[i] == HeaderKey(headers[i]);
  }

  // ----- the row rule -----

  /** The id synthesised for a row without one: `drug-` and the slug of the name. */
  function SlugId(name: string): (id: string)
    ensures |id| == 5 + |name| && id[..5] == "drug-" && id[5..] == Slug(name)
    ensures ' ' !in id
  {
    var slug := Slug(name);
    assert ' ' !in slug by {
      forall i | 0 <= i < |slug| ensures slug[i] != ' ' {
        assert ReplaceChar(name, ' ', '-')[i] != ' ';
      }
    }
    "drug-" + slug
  }

  /** The name lower-cased, with each space replaced by a hyphen. */
  function Slug(name: string): string {
    GoLower(ReplaceChar(name, ' ', '-'))
  }

  /** Position by position, the slug is the name's character lower-cased, with a space
      made a hyphen. */
  lemma SlugChars(name: string)
    ensures |Slug(name)| == |name|
    ensures forall i :: 0 <= i < |name| ==>
      Slug(name)[i] == GoLowerChar(if name[i] == ' ' then '-' else name[i])
  {
  }

  /** Ids do not tell apart names that differ only in case or in spaces against
      hyphens: the name lower-cased, or with its spaces made hyphens, gets the same id. */
  lemma SlugIdCollides(name: string)
    ensures SlugId(GoLower(name)) == SlugId(name)
    ensures SlugId(ReplaceChar(name, ' ', '-')) == SlugId(name)
  {
    var lowered, hyphened := GoLower(name), ReplaceChar(name, ' ', '-');
    SlugChars(name);
    SlugChars(lowered);
    SlugChars(hyphened);
    forall i | 0 <= i < |name| ensures Slug(lowered)[i] == Slug(name)[i] {
      assert lowered[i] == GoLowerChar(name[i]);
    }
    forall i | 0 <= i < |name| ensures Slug(hyphened)[i] == Slug(name)[i] {
      assert hyphened[i] == if name[i] == ' ' then '-' else name[i];
    }
    assert Slug(lowered) == Slug(name);
    assert Slug(hyphened) == Slug(name);
  }

  /** The slug part of an id is its own slug: making an id from it gives the id back. */
  lemma SlugIdIdempotent(name: string)
    ensures SlugId(SlugId(name)[5..]) == SlugId(name)
  {
    var slug := Slug(name);
    SlugChars(name);
    SlugChars(slug);
    forall i | 0 <= i < |slug| ensures Slug(slug)[i] == slug[i] {
      assert slug[i] != ' ';
    }
    assert Slug(slug) == slug;
  }

  /** The trimmed cell at `idx`, when the column exists and the record reaches it. */
  function Cell(fields: seq<string>, idx: int): Option<string> {
    if 0 <= idx < |fields| then Some(TrimSpace(fields[idx])) else None
  }

  /** The drug a record describes, or None when the record is skipped. */
  function NormalizeRow(cols: Columns, fields: seq<string>): (r: Option<Drug>)
    requires cols.nameIdx >= 0
    // skipped exactly when the record does not reach the name column or the name is blank
    ensures r.None? <==> |fields| <= cols.nameIdx || AllGoSpace(fields[cols.nameIdx])
    ensures r.Some? ==> r.value.name == TrimSpace(fields[cols.nameIdx]) && r.value.name != []
    // a present, non-blank id is kept; otherwise it is synthesised from the name
    ensures r.Some? ==> r.value.id != []
    ensures r.Some? && Cell(fields, cols.idIdx).GetOr([]) != [] ==> r.value.id == TrimSpace(fields[cols.idIdx])
    ensures r.Some? && Cell(fields, cols.idIdx).GetOr([]) == [] ==> r.value.id == SlugId(r.value.name)
    // the type defaults only when its column is absent or beyond the record
    ensures r.Some? && !(0 <= cols.typeIdx < |fields|) ==> r.value.kind == DefaultKind
    ensures r.Some? && 0 <= cols.typeIdx < |fields| ==> r.value.kind == TrimSpace(fields[cols.typeIdx])
    ensures r.Some? ==> r.value.strength == Cell(fields, cols.strengthIdx).GetOr("")
  {
    if |fields| <= cols.nameIdx then None
    else
      var name := TrimSpace(fields[cols.nameIdx]);
      if name == "" then None
      else
        var given := Cell(fields, cols.idIdx).GetOr("");
        var id := if given == "" then SlugId(name) else given;
        Some(Drug(id, name, Cell(fields, cols.typeIdx).GetOr(DefaultKind),
                  Cell(fields, cols.strengthIdx).GetOr("")))
  }

  /** The drug data record `n` upserts: None when the record is skipped or its upsert
      fails. */
  function Upserted(cols: Columns, rec: Record, n: nat, faults: DbFaults): Option<Drug>
    requires cols.nameIdx >= 0
  {
    match rec
    case ReadError => None
    case Fields(fields) => if n in faults.failingUpserts then None else NormalizeRow(cols, fields)
  }

  /** What each data record does, in order. */
  function Outcomes(cols: Columns, records: seq<Record>, faults: DbFaults): (ups: seq<Option<Drug>>)
    requires cols.nameIdx >= 0
    ensures |ups| == |records|
    ensures forall i :: 0 <= i < |ups| && ups[i].Some? ==> ups[i].value.name != []
  {
    seq(|records|, i requires 0 <= i < |records| => Upserted(cols, records[i], i, faults))
  }

  lemma OutcomeAt(cols: Columns, records: seq<Record>, faults: DbFaults, i: nat)
    requires cols.nameIdx >= 0 && i < |records|
    ensures Outcomes(cols, records, faults)[i] == Upserted(cols, records[i], i, faults)
  {
  }

  /** The result of the upsert loop: the table and the count of successful upserts. */
  datatype Loaded = Loaded(table: map<string, Drug>, count: nat)

  /** Every row of a table is stored under its own id and has a non-blank name. */
  predicate WellFormed(table: map<string, Drug>) {
    forall k :: k in table ==> table[k].id == k && table[k].name != []
  }

  /** Applies the upserts in order to `start`, counting the successful ones. */
  function ApplyUpserts(start: map<string, Drug>, ups: seq<Option<Drug>>): (l: Loaded)
    ensures l.count <= |ups|
    ensures start.Keys <= l.table.Keys
    decreases |ups|
  {
    if ups == [] then Loaded(start, 0)
    else
      var n := |ups| - 1;
      var prev := ApplyUpserts(start, ups[..n]);
      match ups[n]
      case None => prev
      case Some(d) => Loaded(prev.table[d.id := d], prev.count + 1)
  }

  /** Upserting rows with non-blank names into a well-formed table keeps it well formed. */
  lemma {:induction false} UpsertsKeepWellFormed(start: map<string, Drug>, ups: seq<Option<Drug>>)
    requires WellFormed(start)
    requires forall i :: 0 <= i < |ups| && ups[i].Some? ==> ups[i].value.name != []
    ensures WellFormed(ApplyUpserts(start, ups).table)
    decreases |ups|
  {
    if ups != [] {
      var n := |ups| - 1;
      assert forall i :: 0 <= i < n ==> ups[..n][i] == ups[i];
      UpsertsKeepWellFormed(start, ups[..n]);
    }
  }

  /** So every row a loader stores sits under its own id and has a non-blank name. */
  lemma LoadedWellFormed(start: map<string, Drug>, cols: Columns, records: seq<Record>, faults: DbFaults)
    requires cols.nameIdx >= 0 && WellFormed(start)
    ensures WellFormed(ApplyUpserts(start, Outcomes(cols, records, faults)).table)
  {
    UpsertsKeepWellFormed(start, Outcomes(cols, records, faults));
  }

  /** One more outcome either leaves the result alone or upserts one row and counts it. */
  lemma ApplyOneMore(start: map<string, Drug>, ups: seq<Option<Drug>>, i: nat)
    requires i < |ups|
    ensures var prev := ApplyUpserts(start, ups[..i]);
      ApplyUpserts(start, ups[..i + 1]) ==
        if ups[i].None? then prev else Loaded(prev.table[ups[i].value.id := ups[i].value], prev.count + 1)
  {
    assert ups[..i + 1][..i] == ups[..i];
  }


  /** The count is the number of successful upserts, not the number of distinct ids. */
  function Successes(ups: seq<Option<Drug>>): nat
    decreases |ups|
  {
    if ups == [] then 0
    else Successes(ups[..|ups| - 1]) + (if ups[|ups| - 1].Some? then 1 else 0)
  }

  lemma {:induction false} CountIsSuccesses(start: map<string, Drug>, ups: seq<Option<Drug>>)
    ensures ApplyUpserts(start, ups).count == Successes(ups)
    decreases |ups|
  {
    if ups != [] {
      CountIsSuccesses(start, ups[..|ups| - 1]);
    }
  }

  /** No successful upsert after position `j` has id `id`. */
  predicate NotOverwritten(ups: seq<Option<Drug>>, j: nat, id: string) {
    forall i :: j < i < |ups| ==> !ups[i].Some? || ups[i].value.id != id
  }

  /** Upserts by id: the table maps each id to the LAST successful upsert with that id, so
      a later row replaces an earlier one. */
  lemma {:induction false} LastRowWins(start: map<string, Drug>, ups: seq<Option<Drug>>, j: nat, d: Drug)
    requires j < |ups| && ups[j] == Some(d)
    requires NotOverwritten(ups, j, d.id)
    ensures d.id in ApplyUpserts(start, ups).table
    ensures ApplyUpserts(start, ups).table[d.id] == d
    decreases |ups|
  {
    var n := |ups| - 1;
    var pre := ups[..n];
    if j < n {
      assert pre[j] == ups[j];
      assert NotOverwritten(pre, j, d.id) by {
        forall i | j < i < |pre| ensures !pre[i].Some? || pre[i].value.id != d.id {
          assert pre[i] == ups[i];
        }
      }
      LastRowWins(start, pre, j, d);
    }
  }

  /** Nothing else gets in: a key of the final table was already in the starting table or
      is the id of a successful upsert, and it holds that upsert's drug. */
  lemma {:induction false} KeysComeFromRows(start: map<string, Drug>, ups: seq<Option<Drug>>, k: string)
    requires k in ApplyUpserts(start, ups).table
    ensures k in start || exists j :: 0 <= j < |ups| && ups[j] == Some(ApplyUpserts(start, ups).table[k])
    decreases |ups|
  {
    if ups != [] {
      var n := |ups| - 1;
      var prev := ApplyUpserts(start, ups[..n]);
      var t := ApplyUpserts(start, ups).table;
      if ups[n].Some? && ups[n].value.id == k {
        assert ups[n] == Some(t[k]);
      } else {
        assert t == prev.table || (ups[n].Some? && t == prev.table[ups[n].value.id := ups[n].value]);
        KeysComeFromRows(start, ups[..n], k);
        if k !in start {
          var j :| 0 <= j < n && ups[..n][j] == Some(prev.table[k]);
          assert ups[j] == Some(t[k]);
        }
      }
    }
  }

  /** `LoadDrugsFromCSV(filePath...)`: the path argument when given and non-empty,
      otherwise the default path. */
  function CsvPath(args: seq<string>): (path: string)
    ensures path != []
    ensures |args| > 0 && args[0] != [] ==> path == args[0]
    ensures (|args| == 0 || args[0] == []) ==> path == DefaultCsvPath
  {
    if |args| > 0 && args[0] != "" then args[0] else DefaultCsvPath
  }

  /** The name search's guard `query == "" || len(query) < 2`: a query is short exactly
      when it is empty or a single ASCII character. */
  function ShortQuery(q: string): (short: bool)
    ensures short <==> q == [] || (|q| == 1 && q[0] as int < 0x80)
  {
    Utf8Short(q);
    q == "" || Utf8Length(q) < 2
  }

  /** A drug matches when its lower-cased name contains the lower-cased query. */
  predicate Matches(d: Drug, q: string) {
    Contains(GoLower(d.name), GoLower(q))
  }

  /** The search ignores case on both sides: lower-casing the query or the name does not
      change whether a drug matches. */
  lemma MatchesIgnoresCase(d: Drug, q: string)
    ensures Matches(d, q) <==> Matches(d, GoLower(q))
    ensures Matches(d, q) <==> Matches(d.(name := GoLower(d.name)), q)
  {
    GoLowerIdempotent(q);
    GoLowerIdempotent(d.name);
  }

  /** Code-point order on names, the order `ORDER BY name` gives under the C collation. */
  predicate NameLeq(a: string, b: string)
    decreases |a|
  {
    a == [] || (b != [] && (a[0] < b[0] || (a[0] == b[0] && NameLeq(a[1..], b[1..]))))
  }

  lemma {:induction false} NameLeqTotal(a: string, b: string)
    ensures NameLeq(a, b) || NameLeq(b, a)
    decreases |a|
  {
    if a != [] && b != [] && a[0] == b[0] {
      NameLeqTotal(a[1..], b[1..]);
    }
  }

  lemma {:induction false} NameLeqAntisymmetric(a: string, b: string)
    requires NameLeq(a, b) && NameLeq(b, a)
    ensures a == b
    decreases |a|
  {
    if a != [] {
      NameLeqAntisymmetric(a[1..], b[1..]);
      assert a == [a[0]] + a[1..] && b == [b[0]] + b[1..];
    }
  }

  lemma {:induction false} NameLeqTransitive(a: string, b: string, c: string)
    requires NameLeq(a, b) && NameLeq(b, c)
    ensures NameLeq(a, c)
    decreases |a|
  {
    if a != [] && a[0] == b[0] && b[0] == c[0] {
      NameLeqTransitive(a[1..], b[1..], c[1..]);
    }
  }

  /** Every finite non-empty set of drugs has one whose name comes first. */
  lemma {:induction false} FirstByName(s: set<Drug>) returns (m: Drug)
    requires s != {}
    ensures m in s && forall e :: e in s ==> NameLeq(m.name, e.name)
    decreases |s|
  {
    var x :| x in s;
    if s == {x} {
      m := x;
      NameLeqTotal(x.name, x.name);
    } else {
      var m' := FirstByName(s - {x});
      NameLeqTotal(x.name, m'.name);
      if NameLeq(x.name, m'.name) {
        m := x;
        forall e | e in s ensures NameLeq(m.name, e.name) {
          if e == x {
            NameLeqTotal(x.name, x.name);
          } else {
            NameLeqTransitive(x.name, m'.name, e.name);
          }
        }
      } else {
        m := m';
      }
    }
  }

  /** What a search over the table's rows promises: at most ten rows, each a matching row
      of the table, no row twice, in name order, and no matching row left out that comes
      before the last one returned; fewer than ten only when fewer match. */
  ghost predicate IsSearchResult(rows: set<Drug>, q: string, r: seq<Drug>) {
    var matching := set d | d in rows && Matches(d, q);
    && |r| <= SearchLimit
    && (forall i :: 0 <= i < |r| ==> r[i] in matching)
    && (forall i, j :: 0 <= i < j < |r| ==> r[i] != r[j])
    && (forall i, j :: 0 <= i < j < |r| ==> NameLeq(r[i].name, r[j].name))
    && (|r| == SearchLimit || |r| == |matching|)
    && (forall d :: d in matching && d !in r ==> NameLeq(r[|r| - 1].name, d.name))
  }

  /** The state of the selection loop: `r` holds, in name order and without repeats,
      the matching rows taken so far, `pool` the ones left, and none left comes before
      one taken. */
  ghost predicate SelectedSoFar(matching: set<Drug>, pool: set<Drug>, r: seq<Drug>) {
    && pool <= matching
    && (forall i :: 0 <= i < |r| ==> r[i] in matching && r[i] !in pool)
    && (forall d :: d in matching && d !in pool ==> d in r)
    && (forall i, j :: 0 <= i < j < |r| ==> r[i] != r[j])
    && |r| + |pool| == |matching|
    && (forall i, j :: 0 <= i < j < |r| ==> NameLeq(r[i].name, r[j].name))
    && (forall i, e :: 0 <= i < |r| && e in pool ==> NameLeq(r[i].name, e.name))
  }

  /** Taking a first-by-name row out of the pool keeps the selection state. */
  lemma SelectStep(matching: set<Drug>, pool: set<Drug>, r: seq<Drug>, d: Drug)
    requires SelectedSoFar(matching, pool, r)
    requires d in pool && forall e :: e in pool ==> NameLeq(d.name, e.name)
    ensures SelectedSoFar(matching, pool - {d}, r + [d])
  {
    var r' := r + [d];
    assert |pool - {d}| == |pool| - 1;
    forall x | x in matching && x !in pool - {d} ensures x in r' {
      if x != d {
        assert x in r;
      }
    }
    forall i, j | 0 <= i < j < |r'| ensures r'[i] != r'[j] && NameLeq(r'[i].name, r'[j].name) {
      if j == |r| {
        assert r'[j] == d && r'[i] == r[i];
      }
    }
  }

  /** A selection that has taken ten rows or emptied the pool is a search result. */
  lemma SelectDone(rows: set<Drug>, q: string, pool: set<Drug>, r: seq<Drug>)
    requires SelectedSoFar((set d | d in rows && Matches(d, q)), pool, r)
    requires |r| <= SearchLimit && (|r| == SearchLimit || pool == {})
    ensures IsSearchResult(rows, q, r)
  {
  }

  datatype SearchReply = Found(drugs: seq<Drug>) | SearchFailed

  /** `SearchDrugs`: a short query gives the empty list without a query; otherwise the
      `WHERE LOWER(name) LIKE '%q%' ORDER BY name LIMIT 10` query, which fails when the
      database does. */
  method SearchDrugs(table: map<string, Drug>, q: string, queryFails: bool) returns (reply: SearchReply)
    ensures ShortQuery(q) ==> reply == Found([])
    ensures !ShortQuery(q) && queryFails ==> reply == SearchFailed
    ensures !ShortQuery(q) && !queryFails ==> reply.Found? && IsSearchResult(table.Values, q, reply.drugs)
  {
    if q == "" || Utf8Length(q) < 2 {
      return Found([]);
    }
    if queryFails {
      return SearchFailed;
    }
    ghost var matching := set d | d in table.Values && Matches(d, q);
    var pool := set d | d in table.Values && Matches(d, q);
    var r: seq<Drug> := [];
    while |r| < SearchLimit && pool != {}
      invariant |r| <= SearchLimit
      invariant SelectedSoFar(matching, pool, r)
      decreases |pool|
    {
      ghost var first := FirstByName(pool);
      var d :| d in pool && forall e :: e in pool ==> NameLeq(d.name, e.name);
      SelectStep(matching, pool, r, d);
      r := r + [d];
      pool := pool - {d};
    }
    SelectDone(table.Values, q, pool, r);
    reply := Found(r);
  }

  /** The body of the row loop: the skip checks, then the id, type and strength with
      their defaults. */
  method RowDrug(cols: Columns, fields: seq<string>) returns (drug: Option<Drug>)
    requires cols.nameIdx >= 0 && cols.idIdx >= -1 && cols.typeIdx >= -1 && cols.strengthIdx >= -1
    ensures drug == NormalizeRow(cols, fields)
  {
    if |fields| <= cols.nameIdx {
      return None;
    }
    var name := TrimSpace(fields[cols.nameIdx]);
    if name == "" {
      return None;
    }
    var id := "";
    if cols.idIdx != -1 && cols.idIdx < |fields| {
      id := TrimSpace(fields[cols.idIdx]);
    }
    assert id == Cell(fields, cols.idIdx).GetOr("");
    if id == "" {
      id := SlugId(name);
    }
    var kind := DefaultKind;
    if cols.typeIdx != -1 && cols.typeIdx < |fields| {
      kind := TrimSpace(fields[cols.typeIdx]);
    }
    assert kind == Cell(fields, cols.typeIdx).GetOr(DefaultKind);
    var strength := "";
    if cols.strengthIdx != -1 && cols.strengthIdx < |fields| {
      strength := TrimSpace(fields[cols.strengthIdx]);
    }
    assert strength == Cell(fields, cols.strengthIdx).GetOr("");
    drug := Some(Drug(id, name, kind, strength));
  }

  /** Whether `processDrugCSV` returns an error: the file cannot be opened, the header
      cannot be read, or the header names a `name` column and `CREATE TABLE` fails. */
  predicate ImportFails(source: CsvSource, faults: DbFaults) {
    !source.Opened? || source.header.ReadError?
    || (ColumnsOf(source.header.fields).nameIdx >= 0 && faults.createFails)
  }

  /** What an import that reports no error leaves behind: the table, whether the table
      exists, and the count. A header without `name` stops it before the database is
      touched; otherwise the table is created, emptied unless `TRUNCATE` fails, and the
      rows are upserted into it. */
  function ImportOutcome(rows: map<string, Drug>, tableExists: bool, source: CsvSource, faults: DbFaults)
    : (r: (map<string, Drug>, bool, nat))
    requires !ImportFails(source, faults)
    ensures ColumnsOf(source.header.fields).nameIdx == -1 ==> r == (rows, tableExists, 0)
    ensures ColumnsOf(source.header.fields).nameIdx >= 0 ==> r.1 && r.2 <= |source.records|
  {
    var cols := ColumnsOf(source.header.fields);
    if cols.nameIdx == -1 then (rows, tableExists, 0)
    else
      var start := if faults.truncateFails then rows else map[];
      var l := ApplyUpserts(start, Outcomes(cols, source.records, faults));
      (l.table, true, l.count)
  }

  /** The `drugs` table, which the loaders create, clear and fill. */
  class DrugDatabase {
    var tableExists: bool
    var rows: map<string, Drug>

    constructor ()
      ensures !tableExists && rows == map[]
    {
      tableExists := false;
      rows := map[];
    }

    /** The row loop shared by both loaders. */
    method UpsertRows(cols: Columns, records: seq<Record>, faults: DbFaults) returns (count: nat)
      requires cols.nameIdx >= 0 && cols.idIdx >= -1 && cols.typeIdx >= -1 && cols.strengthIdx >= -1
      modifies this
      ensures tableExists == old(tableExists)
      ensures rows == ApplyUpserts(old(rows), Outcomes(cols, records, faults)).table
      ensures count == ApplyUpserts(old(rows), Outcomes(cols, records, faults)).count
    {
      ghost var ups := Outcomes(cols, records, faults);
      count := 0;
      for i := 0 to |records|
        invariant tableExists == old(tableExists)
        invariant Loaded(rows, count) == ApplyUpserts(old(rows), ups[..i])
      {
        var outcome: Option<Drug> := None;
        match records[i] {
          case ReadError =>
          case Fields(fields) =>
            var drug := RowDrug(cols, fields);
            if i !in faults.failingUpserts {
              outcome := drug;
            }
        }
        assert outcome == Upserted(cols, records[i], i, faults);
        OutcomeAt(cols, records, faults, i);
        ApplyOneMore(old(rows), ups, i);
        if outcome.Some? {
          rows := rows[outcome.value.id := outcome.value];
          count := count + 1;
        }
      }
      assert ups[..|records|] == ups;
    }

    /** `LoadDrugsFromCSV`, run at start-up. A missing or unopenable file and a header
        without a `name` column are not errors and change nothing; a header read error
        or a failed `CREATE TABLE` is returned. Otherwise the table is cleared (unless the
        `TRUNCATE` fails, which is only logged) and the rows are upserted. `logged` is
        the count the loader logs. */
    method LoadDrugsFromCsv(source: CsvSource, faults: DbFaults) returns (failed: bool, logged: nat)
      modifies this
      ensures (source.Missing? || source.Unopenable?) ==> !failed && rows == old(rows) && tableExists == old(tableExists)
      ensures source.Opened? && source.header.ReadError? ==> failed && rows == old(rows) && tableExists == old(tableExists)
      ensures source.Opened? && source.header.Fields? && ColumnsOf(source.header.fields).nameIdx == -1 ==>
        !failed && rows == old(rows) && tableExists == old(tableExists)
      ensures source.Opened? && source.header.Fields? && ColumnsOf(source.header.fields).nameIdx >= 0 ==>
        if faults.createFails then failed && rows == old(rows) && tableExists == old(tableExists)
        else
          var start := if faults.truncateFails then old(rows) else map[];
          var l := ApplyUpserts(start, Outcomes(ColumnsOf(source.header.fields), source.records, faults));
          && !failed && tableExists
          && rows == l.table && logged == l.count
    {
      failed, logged := false, 0;
      if !source.Opened? {
        return;
      }
      if source.header.ReadError? {
        failed := true;
        return;
      }
      var cols := FindColumns(source.header.fields);
      if cols.nameIdx == -1 {
        return;
      }
      if faults.createFails {
        failed := true;
        return;
      }
      tableExists := true;
      if !faults.truncateFails {
        rows := map[];
      }
      logged := UpsertRows(cols, source.records, faults);
    }

    /** `processDrugCSV`, run by the admin upload: the same import, returning the count.
        It returns `(0, error)` when the file cannot be opened, the header cannot be read
        or `CREATE TABLE` fails, and `(0, no error)` when no header is `name`, since the
        error it returns there is the nil one left from reading the header. */
    method ProcessDrugCsv(source: CsvSource, faults: DbFaults) returns (count: nat, failed: bool)
      modifies this
      ensures failed <==> ImportFails(source, faults)
      ensures failed ==> count == 0 && rows == old(rows) && tableExists == old(tableExists)
      ensures !failed ==> (rows, tableExists, count) == ImportOutcome(old(rows), old(tableExists), source, faults)
      ensures (source.Missing? || source.Unopenable?) ==> count == 0 && failed && rows == old(rows) && tableExists == old(tableExists)
      ensures source.Opened? && source.header.ReadError? ==> count == 0 && failed && rows == old(rows) && tableExists == old(tableExists)
      ensures source.Opened? && source.header.Fields? && ColumnsOf(source.header.fields).nameIdx == -1 ==>
        count == 0 && !failed && rows == old(rows) && tableExists == old(tableExists)
      ensures source.Opened? && source.header.Fields? && ColumnsOf(source.header.fields).nameIdx >= 0 ==>
        if faults.createFails then count == 0 && failed && rows == old(rows) && tableExists == old(tableExists)
        else
          var start := if faults.truncateFails then old(rows) else map[];
          var l := ApplyUpserts(start, Outcomes(ColumnsOf(source.header.fields), source.records, faults));
          && !failed && tableExists
          && rows == l.table && count == l.count && count <= |source.records|
    {
      count, failed := 0, false;
      if !source.Opened? {
        failed := true;
        return;
      }
      if source.header.ReadError? {
        failed := true;
        return;
      }
      var cols := FindColumns(source.header.fields);
      if cols.nameIdx == -1 {
        return;
      }
      if faults.createFails {
        failed := true;
        return;
      }
      tableExists := true;
      if !faults.truncateFails {
        rows := map[];
      }
      count := UpsertRows(cols, source.records, faults);
    }

    /** `UploadDrugCSV`: 400 without a `csv` form file, 500 when the temporary copy cannot
        be made or the import reports an error, otherwise 200 with the import's count. */
    method UploadDrugCsv(upload: Option<CsvSource>, saveFails: bool, faults: DbFaults) returns (status: nat, count: nat)
      modifies this
      ensures upload.None? ==> status == 400 && count == 0 && rows == old(rows) && tableExists == old(tableExists)
      ensures upload.Some? && saveFails ==> status == 500 && count == 0 && rows == old(rows) && tableExists == old(tableExists)
      ensures upload.Some? && !saveFails ==> (status == 500 <==> ImportFails(upload.value, faults))
      ensures upload.Some? && !saveFails && ImportFails(upload.value, faults) ==>
        count == 0 && rows == old(rows) && tableExists == old(tableExists)
      ensures upload.Some? && !saveFails && !ImportFails(upload.value, faults) ==>
        status == 200 && (rows, tableExists, count) == ImportOutcome(old(rows), old(tableExists), upload.value, faults)
    {
      count := 0;
      if upload.None? {
        return 400, 0;
      }
      if saveFails {
        return 500, 0;
      }
      var n, failed := ProcessDrugCsv(upload.value, faults);
      if failed {
        return 500, 0;
      }
      status, count := 200, n;
    }
  }
}
