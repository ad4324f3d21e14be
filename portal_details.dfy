/**
 * The three history reports of the user portal (src/stickNAUTA/PortalNauta.py,
 * `get_connection_details`, `get_recharge_details`, `get_transfer_details`): the
 * same walk over year-months, summary and paged lists, differing only in paths,
 * key names and the number of table cells per record.
 */
module PortalDetails {
  import opened Py
  import opened PyText
  import opened Web
  import opened Accounts

  const USER_URL := "https://www.portal.nauta.cu/useraaa"

  /** The `value` of each option of the year-month selector. */
  const YEAR_MONTH_XPATH := "//*[@name=\"year_month\"]/option"
  const SUMMARY_XPATH := "//*[@class=\"card-stats-number\"]/text()"
  const ROWS_XPATH := "/html/body/div[1]/div/table/tr/td/text()"

  /** The number of records the portal shows on one page of a list. */
  const PAGE_SIZE := 15

  datatype Kind = Connections | Recharges | Transfers

  /** The path of the report under the user area. */
  function Path(k: Kind): string
  {
    match k
    case Connections => "service_detail"
    case Recharges => "recharge_detail"
    case Transfers => "transfer_detail"
  }

  /** The report's name in error messages. */
  function Noun(k: Kind): string
  {
    match k
    case Connections => "connection details"
    case Recharges => "recharge details"
    case Transfers => "transfer details"
  }

  /** What a failed page request says it failed to do. */
  function ListWhat(k: Kind): string
  {
    match k
    case Connections => "get all sessions connection details"
    case Recharges => "get all recharges details"
    case Transfers => "get all transfer details"
  }

  /** The keys of one record, in the order of the table's cells. */
  function Fields(k: Kind): seq<string>
  {
    match k
    case Connections =>
      ["start_datetime", "end_datetime", "duration", "upload_traffic", "download_traffic", "import"]
    case Recharges => ["datetime", "import", "channel", "type"]
    case Transfers => ["datetime", "import", "target_account"]
  }

  /** The number of table cells that make one record. */
  function Width(k: Kind): (w: nat)
    ensures w == |Fields(k)| && w >= 3
  {
    |Fields(k)|
  }

  /** The keys the summary cards fill, in the order of the cards. The first is the
      number of records in the month. */
  function SummaryKeys(k: Kind): seq<string>
  {
    match k
    case Connections =>
      ["connections", "total_time", "total_import", "upload_traffic", "download_traffic", "total_traffic"]
    case Recharges => ["recharges", "total_import"]
    case Transfers => ["transfers", "total_import"]
  }

  /** One row of a list, keyed by `Fields`. */
  type Record = map<string, string>

  /** The summary of one month and its records (the list stored under
      `all_sessions`, `all_recharges` or `all_transfers`). */
  datatype Period = Period(summary: map<string, string>, records: seq<Record>)

  /** The record one group of `Width(k)` cells makes, by position. */
  function RecordOf(k: Kind, cells: seq<string>): Record
    requires |cells| == Width(k)
  {
    match k
    case Connections =>
      map["start_datetime" := cells[0], "end_datetime" := cells[1], "duration" := cells[2],
          "upload_traffic" := cells[3], "download_traffic" := cells[4], "import" := cells[5]]
    case Recharges =>
      map["datetime" := cells[0], "import" := cells[1], "channel" := cells[2], "type" := cells[3]]
    case Transfers =>
      map["datetime" := cells[0], "import" := cells[1], "target_account" := cells[2]]
  }

  /** A record's keys are exactly the kind's fields, and field `f` holds cell `f`. */
  lemma RecordOfFields(k: Kind, cells: seq<string>)
    requires |cells| == Width(k)
    ensures RecordOf(k, cells).Keys == set f | f in Fields(k)
    ensures forall f :: 0 <= f < Width(k) ==> RecordOf(k, cells)[Fields(k)[f]] == cells[f]
  {
  }

  function SummaryOf(k: Kind, cells: seq<string>): (r: map<string, string>)
    requires |cells| >= |SummaryKeys(k)|
    ensures r.Keys == set key | key in SummaryKeys(k)
    ensures forall i :: 0 <= i < |SummaryKeys(k)| ==> r[SummaryKeys(k)[i]] == cells[i]
  {
    match k
    case Connections =>
      map["connections" := cells[0], "total_time" := cells[1], "total_import" := cells[2],
          "upload_traffic" := cells[3], "download_traffic" := cells[4], "total_traffic" := cells[5]]
    case Recharges => map["recharges" := cells[0], "total_import" := cells[1]]
    case Transfers => map["transfers" := cells[0], "total_import" := cells[1]]
  }

  // ---------------------------------------------------------------- records of one page

  /**
   * `for j in range(0, len(rows), w)`, one record per `w` consecutive cells. A last
   * group shorter than `w` raises IndexError.
   */
  function Chunk(rows: seq<string>, k: Kind): (r: Result<seq<Record>>)
    decreases |rows|
  {
    if |rows| == 0 then Ok([])
    else if |rows| < Width(k) then Err(LIST_INDEX_ERROR)
    else match Chunk(rows[Width(k)..], k)
      case Err(e) => Err(e)
      case Ok(rest) => Ok([RecordOf(k, rows[..Width(k)])] + rest)
  }

  /** A record is well formed when its keys are exactly the kind's fields. */
  predicate WellFormed(k: Kind, r: Record)
  {
    r.Keys == set f | f in Fields(k)
  }

  /** The cells of one record, in table order. */
  function CellsOf(k: Kind, r: Record): (cells: seq<string>)
    requires WellFormed(k, r)
    ensures |cells| == Width(k)
    ensures forall f :: 0 <= f < Width(k) ==> cells[f] == r[Fields(k)[f]]
  {
    seq(Width(k), f requires 0 <= f < Width(k) => r[Fields(k)[f]])
  }

  /** The table cells a list of records comes from. */
  function Flatten(k: Kind, recs: seq<Record>): (cells: seq<string>)
    requires forall i :: 0 <= i < |recs| ==> WellFormed(k, recs[i])
  {
    if |recs| == 0 then [] else CellsOf(k, recs[0]) + Flatten(k, recs[1..])
  }

  lemma ModSmall(n: nat, k: Kind)
    requires 0 < n < Width(k)
    ensures n % Width(k) != 0
  {
  }

  lemma ModStep(n: nat, k: Kind)
    requires Width(k) <= n
    ensures n % Width(k) == (n - Width(k)) % Width(k) && n / Width(k) == (n - Width(k)) / Width(k) + 1
  {
    match k
    case Connections => assert Width(k) == 6;
    case Recharges => assert Width(k) == 4;
    case Transfers => assert Width(k) == 3;
  }

  /**
   * The rows split into whole records exactly when their number is a multiple of
   * the width, and the records then number `|rows| / w`; otherwise IndexError.
   */
  lemma {:induction false} ChunkShape(rows: seq<string>, k: Kind)
    ensures Chunk(rows, k).Ok? <==> |rows| % Width(k) == 0
    ensures Chunk(rows, k).Err? ==> Chunk(rows, k).error == LIST_INDEX_ERROR
    ensures Chunk(rows, k).Ok? ==> |Chunk(rows, k).value| == |rows| / Width(k)
    decreases |rows|
  {
    var w := Width(k);
    if |rows| == 0 {
    } else if |rows| < w {
      ModSmall(|rows|, k);
    } else {
      ModStep(|rows|, k);
      ChunkShape(rows[w..], k);
    }
  }

  /** Every record is well formed, and reading their cells back in order gives the rows. */
  lemma {:induction false} ChunkCells(rows: seq<string>, k: Kind)
    requires Chunk(rows, k).Ok?
    ensures forall i :: 0 <= i < |Chunk(rows, k).value| ==> WellFormed(k, Chunk(rows, k).value[i])
    ensures Flatten(k, Chunk(rows, k).value) == rows
    decreases |rows|
  {
    if |rows| > 0 {
      ChunkCons(rows, k);
      ChunkCells(rows[Width(k)..], k);
      CellsOfRecordOf(k, rows[..Width(k)]);
      ChunkCellsStep(rows, k, RecordOf(k, rows[..Width(k)]), Chunk(rows[Width(k)..], k).value);
    }
  }

  /** The step of `ChunkCells`: a record holding the first group of cells, in front
      of records that flatten to the remaining cells, flattens to all the cells. */
  lemma ChunkCellsStep(rows: seq<string>, k: Kind, head: Record, tail: seq<Record>)
    requires |rows| >= Width(k) && WellFormed(k, head) && CellsOf(k, head) == rows[..Width(k)]
    requires forall i :: 0 <= i < |tail| ==> WellFormed(k, tail[i])
    requires Flatten(k, tail) == rows[Width(k)..]
    ensures forall i :: 0 <= i < |[head] + tail| ==> WellFormed(k, ([head] + tail)[i])
    ensures Flatten(k, [head] + tail) == rows
  {
    FlattenCons(k, head, tail);
    assert rows == rows[..Width(k)] + rows[Width(k)..];
  }

  /** Record `i` is built from the `w` cells from `i * w` on, so its field `f` is the
      cell at `i * w + f`. */
  lemma {:induction false} ChunkRecordAt(rows: seq<string>, k: Kind, i: nat)
    requires Chunk(rows, k).Ok? && i < |Chunk(rows, k).value|
    ensures 0 <= i * Width(k) && i * Width(k) + Width(k) <= |rows|
    ensures Chunk(rows, k).value[i] == RecordOf(k, rows[i * Width(k)..i * Width(k) + Width(k)])
    decreases i
  {
    var w := Width(k);
    ChunkCons(rows, k);
    var head, tail := RecordOf(k, rows[..w]), Chunk(rows[w..], k).value;
    if i == 0 {
      ChunkRecordFirst(rows, k, head, tail);
    } else {
      ChunkRecordAt(rows[w..], k, i - 1);
      ChunkRecordNext(rows, k, i, head, tail);
    }
  }

  lemma ChunkRecordFirst(rows: seq<string>, k: Kind, head: Record, tail: seq<Record>)
    requires Width(k) <= |rows| && head == RecordOf(k, rows[..Width(k)])
    ensures 0 <= 0 * Width(k) && 0 * Width(k) + Width(k) <= |rows|
    ensures ([head] + tail)[0] == RecordOf(k, rows[0 * Width(k)..0 * Width(k) + Width(k)])
  {
    assert rows[0 * Width(k)..0 * Width(k) + Width(k)] == rows[..Width(k)];
  }

  /** The step of `ChunkRecordAt`: record `i - 1` of the tail is record `i` of the whole. */
  lemma ChunkRecordNext(rows: seq<string>, k: Kind, i: nat, head: Record, tail: seq<Record>)
    requires 0 < i <= |tail| && Width(k) <= |rows|
    requires 0 <= (i - 1) * Width(k) && (i - 1) * Width(k) + Width(k) <= |rows[Width(k)..]|
    requires tail[i - 1] == RecordOf(k, rows[Width(k)..][(i - 1) * Width(k)..(i - 1) * Width(k) + Width(k)])
    ensures 0 <= i * Width(k) && i * Width(k) + Width(k) <= |rows|
    ensures ([head] + tail)[i] == RecordOf(k, rows[i * Width(k)..i * Width(k) + Width(k)])
  {
    ShiftedGroup(rows, Width(k), i);
  }

  /** Group `i - 1` of the cells after the first `w` is group `i` of all of them. */
  lemma ShiftedGroup(rows: seq<string>, w: nat, i: nat)
    requires 0 < i && w <= |rows| && (i - 1) * w + w <= |rows[w..]|
    ensures 0 <= i * w && i * w + w <= |rows| && rows[w..][(i - 1) * w..(i - 1) * w + w] == rows[i * w..i * w + w]
  {
    assert (i - 1) * w + w == i * w;
  }

  lemma ChunkCons(rows: seq<string>, k: Kind)
    requires |rows| > 0 && Chunk(rows, k).Ok?
    ensures |rows| >= Width(k) && Chunk(rows[Width(k)..], k).Ok?
    ensures Chunk(rows, k).value == [RecordOf(k, rows[..Width(k)])] + Chunk(rows[Width(k)..], k).value
  {
  }

  lemma FlattenCons(k: Kind, head: Record, tail: seq<Record>)
    requires WellFormed(k, head) && forall i :: 0 <= i < |tail| ==> WellFormed(k, tail[i])
    ensures forall i :: 0 <= i < |[head] + tail| ==> WellFormed(k, ([head] + tail)[i])
    ensures Flatten(k, [head] + tail) == CellsOf(k, head) + Flatten(k, tail)
  {
    assert ([head] + tail)[1..] == tail;
  }

  /** A record built from a group of cells gives those cells back. */
  lemma CellsOfRecordOf(k: Kind, cells: seq<string>)
    requires |cells| == Width(k)
    ensures WellFormed(k, RecordOf(k, cells)) && CellsOf(k, RecordOf(k, cells)) == cells
  {
    RecordOfFields(k, cells);
  }

  lemma RecordOfCellsOf(k: Kind, r: Record)
    requires WellFormed(k, r)
    ensures RecordOf(k, CellsOf(k, r)) == r
  {
    var r' := RecordOf(k, CellsOf(k, r));
    RecordOfFields(k, CellsOf(k, r));
    forall key | key in r.Keys ensures r'[key] == r[key] {
      var f :| 0 <= f < |Fields(k)| && Fields(k)[f] == key;
    }
  }

  /** Going the other way: the cells of well-formed records chunk back into those records. */
  lemma {:induction false} ChunkFlatten(recs: seq<Record>, k: Kind)
    requires forall i :: 0 <= i < |recs| ==> WellFormed(k, recs[i])
    ensures Chunk(Flatten(k, recs), k) == Ok(recs)
  {
    if |recs| > 0 {
      ChunkFlatten(recs[1..], k);
      FlattenSplit(k, recs);
      ChunkFlattenStep(Flatten(k, recs), k, recs[0], recs[1..]);
      assert [recs[0]] + recs[1..] == recs;
    }
  }

  /** The step of `ChunkFlatten`: cells that start with a record's cells chunk to that
      record in front of what the remaining cells chunk to. */
  lemma ChunkFlattenStep(cells: seq<string>, k: Kind, head: Record, tail: seq<Record>)
    requires WellFormed(k, head) && |cells| >= Width(k) && cells[..Width(k)] == CellsOf(k, head)
    requires Chunk(cells[Width(k)..], k) == Ok(tail)
    ensures Chunk(cells, k) == Ok([head] + tail)
  {
    RecordOfCellsOf(k, head);
    ChunkStep(cells, k, head, tail);
  }

  lemma FlattenSplit(k: Kind, recs: seq<Record>)
    requires |recs| > 0 && forall i :: 0 <= i < |recs| ==> WellFormed(k, recs[i])
    ensures |Flatten(k, recs)| >= Width(k)
    ensures Flatten(k, recs)[..Width(k)] == CellsOf(k, recs[0])
    ensures Flatten(k, recs)[Width(k)..] == Flatten(k, recs[1..])
  {
  }

  lemma ChunkStep(rows: seq<string>, k: Kind, head: Record, tail: seq<Record>)
    requires |rows| >= Width(k) && RecordOf(k, rows[..Width(k)]) == head && Chunk(rows[Width(k)..], k) == Ok(tail)
    ensures Chunk(rows, k) == Ok([head] + tail)
  {
  }

  // ---------------------------------------------------------------- pages of one month

  /** The URL of page `i` of a month whose summary announced `count` records. */
  function PageUrl(k: Kind, yearMonth: string, count: string, i: int): string
  {
    USER_URL + "/" + Path(k) + "_list/" + yearMonth + "/" + count + "/" + IntToString(i)
  }

  /**
   * `range(1, int(n / 15) + 2)`: the number of pages requested for a month of `n`
   * records (none when that is not positive). For a non-negative count the pages
   * hold all the records, with at most one page to spare.
   */
  function PageCount(n: int): (pages: int)
    ensures n >= 0 ==> pages >= 1 && (pages - 1) * PAGE_SIZE <= n < pages * PAGE_SIZE
    ensures n < 0 ==> pages <= 1
    ensures pages <= 0 <==> n <= -PAGE_SIZE
  {
    TruncDiv(n, PAGE_SIZE) + 1
  }

  /** A run preceded by requests sent before it. */
  function Prepend<T>(pre: seq<Request>, run: Run<T>): (r: Run<T>)
    ensures r.result == run.result && r.sent == pre + run.sent
  {
    Run(run.result, pre + run.sent)
  }

  lemma PrependPrepend<T>(a: seq<Request>, b: seq<Request>, run: Run<T>)
    ensures Prepend(a, Prepend(b, run)) == Prepend(a + b, run)
  {
    assert a + (b + run.sent) == (a + b) + run.sent;
  }

  /** The cells a page of the list shows. */
  function PageRows(k: Kind, net: Net, yearMonth: string, count: string, i: int): seq<string>
  {
    net.xpath(ROWS_XPATH, net.respond(Get(PageUrl(k, yearMonth, count, i))).text)
  }

  /** One page of the list: one request, and the page's cells cut into records. */
  function PageSpec(k: Kind, net: Net, yearMonth: string, count: string, i: int): (r: Run<seq<Record>>)
    ensures r.sent == [Get(PageUrl(k, yearMonth, count, i))]
    ensures r.result.Ok? <==>
              net.respond(Get(PageUrl(k, yearMonth, count, i))).Ok()
              && |PageRows(k, net, yearMonth, count, i)| % Width(k) == 0
    ensures !net.respond(Get(PageUrl(k, yearMonth, count, i))).Ok() ==>
              r.result == Err(HttpError(ListWhat(k), net.respond(Get(PageUrl(k, yearMonth, count, i)))))
    ensures net.respond(Get(PageUrl(k, yearMonth, count, i))).Ok() ==>
              r.result == Chunk(PageRows(k, net, yearMonth, count, i), k)
  {
    var req := Get(PageUrl(k, yearMonth, count, i));
    var resp := net.respond(req);
    ChunkShape(net.xpath(ROWS_XPATH, resp.text), k);
    if !resp.Ok() then Run(Err(HttpError(ListWhat(k), resp)), [req])
    else Run(Chunk(net.xpath(ROWS_XPATH, resp.text), k), [req])
  }

  function PageReader(k: Kind, net: Net, yearMonth: string, count: string): int -> Run<seq<Record>>
  {
    i => PageSpec(k, net, yearMonth, count, i)
  }

  /** The records of pages `i` to `last`, each read with `page`, appended to `acc`, as
      the page loop builds them. */
  function PagesFrom(page: int -> Run<seq<Record>>, i: int, last: int, acc: seq<Record>): (r: Run<seq<Record>>)
    decreases last + 1 - i
  {
    if i > last then Run(Ok(acc), [])
    else
      var p := page(i);
      match p.result
      case Err(e) => Run(Err(e), p.sent)
      case Ok(recs) => Prepend(p.sent, PagesFrom(page, i + 1, last, acc + recs))
  }

  /** The requests of pages `i` to `i + n - 1`, in order. */
  function PagesSent(page: int -> Run<seq<Record>>, i: int, n: nat): seq<Request>
    decreases n
  {
    if n == 0 then [] else page(i).sent + PagesSent(page, i + 1, n - 1)
  }

  /** The records of pages `i` to `i + n - 1`, in page order, when each of them completes. */
  function PagesRecords(page: int -> Run<seq<Record>>, i: int, n: nat): seq<Record>
    requires forall p :: i <= p < i + n ==> page(p).result.Ok?
    decreases n
  {
    if n == 0 then [] else page(i).result.value + PagesRecords(page, i + 1, n - 1)
  }

  /**
   * The page loop completes exactly when every page from `i` to `last` completes;
   * it has then sent every page's requests in order.
   */
  lemma {:induction false} PagesFromOk(page: int -> Run<seq<Record>>, i: int, last: int, acc: seq<Record>)
    ensures var r := PagesFrom(page, i, last, acc);
            && (r.result.Ok? <==> forall p :: i <= p <= last ==> page(p).result.Ok?)
            && (r.result.Ok? ==> r.sent == PagesSent(page, i, if i <= last then last - i + 1 else 0))
    decreases last + 1 - i
  {
    if i <= last {
      var p := page(i);
      if p.result.Ok? {
        PagesFromOk(page, i + 1, last, acc + p.result.value);
        if i + 1 <= last {
          assert PagesSent(page, i, last - i + 1) == p.sent + PagesSent(page, i + 1, last - i);
        }
      }
    }
  }

  /** A page loop that completes yields `acc` followed by every page's records, in page order. */
  lemma {:induction false} PagesFromRecords(page: int -> Run<seq<Record>>, i: int, last: int, acc: seq<Record>)
    requires forall p :: i <= p <= last ==> page(p).result.Ok?
    ensures PagesFrom(page, i, last, acc).result
              == Ok(acc + PagesRecords(page, i, if i <= last then last - i + 1 else 0))
    decreases last + 1 - i
  {
    if i <= last {
      var recs := page(i).result.value;
      var n := last - i + 1;
      PagesFromRecords(page, i + 1, last, acc + recs);
      assert PagesFrom(page, i, last, acc).result == PagesFrom(page, i + 1, last, acc + recs).result;
      assert (if i + 1 <= last then last - (i + 1) + 1 else 0) == n - 1;
      assert PagesRecords(page, i, n) == recs + PagesRecords(page, i + 1, n - 1);
      assert (acc + recs) + PagesRecords(page, i + 1, n - 1) == acc + (recs + PagesRecords(page, i + 1, n - 1));
      assert PagesFrom(page, i + 1, last, acc + recs).result == Ok((acc + recs) + PagesRecords(page, i + 1, n - 1));
      assert PagesFrom(page, i, last, acc).result == Ok(acc + PagesRecords(page, i, n));
    } else {
      assert acc + [] == acc;
    }
  }

  /**
   * When the page loop fails, it failed on page `i + n` after `n` pages that
   * completed: it has sent those pages' requests and the failing page's, and
   * raises the failing page's error.
   */
  lemma {:induction false} PagesFromErr(page: int -> Run<seq<Record>>, i: int, last: int, acc: seq<Record>)
    ensures PagesFrom(page, i, last, acc).result.Err? ==>
              exists n: nat :: FailsAt(page, i, last, n, PagesFrom(page, i, last, acc))
    decreases last + 1 - i
  {
    var r := PagesFrom(page, i, last, acc);
    if i <= last && r.result.Err? {
      var p := page(i);
      if p.result.Ok? {
        var rest := PagesFrom(page, i + 1, last, acc + p.result.value);
        PagesFromErr(page, i + 1, last, acc + p.result.value);
        var n: nat :| FailsAt(page, i + 1, last, n, rest);
        FailsAtStep(page, i, last, n, r, rest);
      } else {
        assert FailsAt(page, i, last, 0, r);
      }
    }
  }

  /** The loop from page `i` failed at page `i + n`, after `n` pages that completed. */
  ghost predicate FailsAt(page: int -> Run<seq<Record>>, i: int, last: int, n: nat, r: Run<seq<Record>>)
  {
    && i + n <= last
    && (forall p :: i <= p < i + n ==> page(p).result.Ok?)
    && page(i + n).result.Err?
    && r.result == Err(page(i + n).result.error)
    && r.sent == PagesSent(page, i, n) + page(i + n).sent
  }

  lemma FailsAtStep(page: int -> Run<seq<Record>>, i: int, last: int, n: nat,
                    r: Run<seq<Record>>, rest: Run<seq<Record>>)
    requires page(i).result.Ok? && r == Prepend(page(i).sent, rest) && FailsAt(page, i + 1, last, n, rest)
    ensures FailsAt(page, i, last, n + 1, r)
  {
    assert PagesSent(page, i, n + 1) == page(i).sent + PagesSent(page, i + 1, n);
    assert i + (n + 1) == i + 1 + n;
  }

  // ---------------------------------------------------------------- one month

  /** The form of the summary request; `list_type` is the same for all three reports. */
  function SummaryForm(csrf: string, yearMonth: string): seq<(string, string)>
  {
    [("csrf", csrf), ("year_month", yearMonth), ("list_type", "service_detail")]
  }

  function SummaryRequest(k: Kind, csrf: string, yearMonth: string): Request
  {
    Post(USER_URL + "/" + Path(k) + "_summary", SummaryForm(csrf, yearMonth))
  }

  /**
   * The body of the year-month loop: the summary cards, then the list pages. On
   * success the first card announced a whole number of records, and the summary
   * holds the cards under the kind's keys.
   */
  function PeriodSpec(k: Kind, net: Net, csrf: string, yearMonth: string): (r: Run<Period>)
    ensures |r.sent| >= 1 && r.sent[0] == SummaryRequest(k, csrf, yearMonth)
    ensures r.result.Ok? ==>
              var cells := net.xpath(SUMMARY_XPATH, net.respond(SummaryRequest(k, csrf, yearMonth)).text);
              && |cells| >= |SummaryKeys(k)| && ParseInt(cells[0]).Some?
              && r.result.value.summary.Keys == (set key | key in SummaryKeys(k))
              && forall i :: 0 <= i < |SummaryKeys(k)| ==> r.result.value.summary[SummaryKeys(k)[i]] == cells[i]
  {
    var req := SummaryRequest(k, csrf, yearMonth);
    var resp := net.respond(req);
    if !resp.Ok() then Run(Err(HttpError("get " + Noun(k) + " summary", resp)), [req])
    else
      var cells := net.xpath(SUMMARY_XPATH, resp.text);
      if |cells| < |SummaryKeys(k)| then Run(Err(LIST_INDEX_ERROR), [req])
      else match ParseInt(cells[0])
        case None => Run(Err(ParseIntError(cells[0])), [req])
        case Some(n) =>
          var pages := PagesFrom(PageReader(k, net, yearMonth, cells[0]), 1, PageCount(n), []);
          match pages.result
          case Err(e) => Run(Err(e), [req] + pages.sent)
          case Ok(recs) => Run(Ok(Period(SummaryOf(k, cells), recs)), [req] + pages.sent)
  }

  /**
   * A month is read exactly when the summary answers, has every card, announces an
   * integer count, and every list page from 1 to `PageCount` completes.
   */
  lemma PeriodSucceeds(k: Kind, net: Net, csrf: string, yearMonth: string)
    ensures var cells := net.xpath(SUMMARY_XPATH, net.respond(SummaryRequest(k, csrf, yearMonth)).text);
            PeriodSpec(k, net, csrf, yearMonth).result.Ok? <==>
              && net.respond(SummaryRequest(k, csrf, yearMonth)).Ok()
              && |cells| >= |SummaryKeys(k)| && ParseInt(cells[0]).Some?
              && forall p :: 1 <= p <= PageCount(ParseInt(cells[0]).value) ==>
                   PageReader(k, net, yearMonth, cells[0])(p).result.Ok?
  {
    var resp := net.respond(SummaryRequest(k, csrf, yearMonth));
    var cells := net.xpath(SUMMARY_XPATH, resp.text);
    if resp.Ok() && |cells| >= |SummaryKeys(k)| && ParseInt(cells[0]).Some? {
      PagesFromOk(PageReader(k, net, yearMonth, cells[0]), 1, PageCount(ParseInt(cells[0]).value), []);
    }
  }

  /**
   * How a month fails: the summary's HTTP error, then IndexError when a card is
   * missing, then the ValueError of `int()` on the count, each after the summary
   * request alone; past those, the first list page that fails, after the pages
   * before it.
   */
  lemma PeriodErrors(k: Kind, net: Net, csrf: string, yearMonth: string)
    ensures var req := SummaryRequest(k, csrf, yearMonth);
            var resp := net.respond(req);
            var cells := net.xpath(SUMMARY_XPATH, resp.text);
            var r := PeriodSpec(k, net, csrf, yearMonth);
            && (!resp.Ok() ==> r == Run(Err(HttpError("get " + Noun(k) + " summary", resp)), [req]))
            && (resp.Ok() && |cells| < |SummaryKeys(k)| ==> r == Run(Err(LIST_INDEX_ERROR), [req]))
            && (resp.Ok() && |cells| >= |SummaryKeys(k)| && ParseInt(cells[0]).None? ==>
                  r == Run(Err(ParseIntError(cells[0])), [req]))
            && (resp.Ok() && |cells| >= |SummaryKeys(k)| && ParseInt(cells[0]).Some? ==>
                  var reader := PageReader(k, net, yearMonth, cells[0]);
                  var last := PageCount(ParseInt(cells[0]).value);
                  var pages := PagesFrom(reader, 1, last, []);
                  pages.result.Err? ==>
                    && r == Run(Err(pages.result.error), [req] + pages.sent)
                    && exists n: nat :: FailsAt(reader, 1, last, n, pages))
  {
    var req := SummaryRequest(k, csrf, yearMonth);
    var resp := net.respond(req);
    var cells := net.xpath(SUMMARY_XPATH, resp.text);
    if resp.Ok() && |cells| >= |SummaryKeys(k)| && ParseInt(cells[0]).Some? {
      PagesFromErr(PageReader(k, net, yearMonth, cells[0]), 1, PageCount(ParseInt(cells[0]).value), []);
    }
  }

  /** The records of a month that is read are every list page's records, in page order. */
  lemma PeriodRecords(k: Kind, net: Net, csrf: string, yearMonth: string)
    requires PeriodSpec(k, net, csrf, yearMonth).result.Ok?
    ensures var cells := net.xpath(SUMMARY_XPATH, net.respond(SummaryRequest(k, csrf, yearMonth)).text);
            |cells| >= |SummaryKeys(k)| && ParseInt(cells[0]).Some?
            && var last := PageCount(ParseInt(cells[0]).value);
            && (forall p :: 1 <= p <= last ==> PageReader(k, net, yearMonth, cells[0])(p).result.Ok?)
            && PeriodSpec(k, net, csrf, yearMonth).result.value.records
                 == PagesRecords(PageReader(k, net, yearMonth, cells[0]), 1, if 1 <= last then last else 0)
  {
    PeriodPages(k, net, csrf, yearMonth);
    var cells := net.xpath(SUMMARY_XPATH, net.respond(SummaryRequest(k, csrf, yearMonth)).text);
    var reader, last := PageReader(k, net, yearMonth, cells[0]), PageCount(ParseInt(cells[0]).value);
    PagesFromOk(reader, 1, last, []);
    PagesFromFirst(reader, last);
  }

  /** The page loop from page 1 with nothing collected yields every page's records. */
  lemma PagesFromFirst(page: int -> Run<seq<Record>>, last: int)
    requires forall p :: 1 <= p <= last ==> page(p).result.Ok?
    ensures PagesFrom(page, 1, last, []).result == Ok(PagesRecords(page, 1, if 1 <= last then last else 0))
  {
    PagesFromRecords(page, 1, last, []);
    var n: nat := if 1 <= last then last else 0;
    assert [] + PagesRecords(page, 1, n) == PagesRecords(page, 1, n);
  }

  /** A month that is read holds what its page loop, from page 1 to `PageCount`, found. */
  lemma PeriodPages(k: Kind, net: Net, csrf: string, yearMonth: string)
    requires PeriodSpec(k, net, csrf, yearMonth).result.Ok?
    ensures var cells := net.xpath(SUMMARY_XPATH, net.respond(SummaryRequest(k, csrf, yearMonth)).text);
            |cells| >= |SummaryKeys(k)| && ParseInt(cells[0]).Some?
            && var pages := PagesFrom(PageReader(k, net, yearMonth, cells[0]), 1, PageCount(ParseInt(cells[0]).value), []);
            && pages.result.Ok?
            && PeriodSpec(k, net, csrf, yearMonth).result.value.records == pages.result.value
            && PeriodSpec(k, net, csrf, yearMonth).sent == [SummaryRequest(k, csrf, yearMonth)] + pages.sent
  {
  }

  /** The page requests sent for pages `i` to `i + n - 1`: one GET each. */
  lemma {:induction false} PagesSentOfReader(k: Kind, net: Net, yearMonth: string, count: string, i: int, n: nat)
    ensures var sent := PagesSent(PageReader(k, net, yearMonth, count), i, n);
            |sent| == n && forall j :: 0 <= j < n ==> sent[j] == Get(PageUrl(k, yearMonth, count, i + j))
    decreases n
  {
    if n > 0 {
      PagesSentOfReader(k, net, yearMonth, count, i + 1, n - 1);
      var sent := PagesSent(PageReader(k, net, yearMonth, count), i, n);
      var rest := PagesSent(PageReader(k, net, yearMonth, count), i + 1, n - 1);
      assert sent == [Get(PageUrl(k, yearMonth, count, i))] + rest;
      forall j | 0 < j < n ensures sent[j] == Get(PageUrl(k, yearMonth, count, i + j)) {
        assert sent[j] == rest[j - 1];
      }
    }
  }

  /** A page loop over pages 1 to `last` that completes sends one GET per page, in page order. */
  lemma PagesFromRequests(k: Kind, net: Net, yearMonth: string, count: string, last: int)
    ensures var r := PagesFrom(PageReader(k, net, yearMonth, count), 1, last, []);
            r.result.Ok? ==>
              && |r.sent| == (if last > 0 then last else 0)
              && forall j :: 0 <= j < |r.sent| ==> r.sent[j] == Get(PageUrl(k, yearMonth, count, j + 1))
  {
    var reader := PageReader(k, net, yearMonth, count);
    PagesFromOk(reader, 1, last, []);
    var n: nat := if last > 0 then last else 0;
    PagesSentOfReader(k, net, yearMonth, count, 1, n);
    var sent := PagesSent(reader, 1, n);
    forall j | 0 <= j < n ensures sent[j] == Get(PageUrl(k, yearMonth, count, j + 1)) {
      assert 1 + j == j + 1;
    }
  }

  /**
   * A month is read with one summary request followed by one GET per page, pages 1
   * to `PageCount` of the count the first summary card announced.
   */
  lemma PeriodRequests(k: Kind, net: Net, csrf: string, yearMonth: string)
    ensures var r := PeriodSpec(k, net, csrf, yearMonth);
            && |r.sent| >= 1 && r.sent[0] == SummaryRequest(k, csrf, yearMonth)
            && (r.result.Ok? ==>
                  var cells := net.xpath(SUMMARY_XPATH, net.respond(r.sent[0]).text);
                  && |cells| >= 1 && ParseInt(cells[0]).Some?
                  && var pages := PageCount(ParseInt(cells[0]).value);
                  && |r.sent| == 1 + (if pages > 0 then pages else 0)
                  && forall j :: 1 <= j < |r.sent| ==> r.sent[j] == Get(PageUrl(k, yearMonth, cells[0], j)))
  {
    var req := SummaryRequest(k, csrf, yearMonth);
    var cells := net.xpath(SUMMARY_XPATH, net.respond(req).text);
    var r := PeriodSpec(k, net, csrf, yearMonth);
    if r.result.Ok? {
      var last := PageCount(ParseInt(cells[0]).value);
      var pages := PagesFrom(PageReader(k, net, yearMonth, cells[0]), 1, last, []);
      PeriodPages(k, net, csrf, yearMonth);
      PagesFromRequests(k, net, yearMonth, cells[0], last);
      forall j | 1 <= j < |r.sent| ensures r.sent[j] == Get(PageUrl(k, yearMonth, cells[0], j)) {
        assert r.sent[j] == pages.sent[j - 1];
        assert j - 1 + 1 == j;
      }
    }
  }

  // ---------------------------------------------------------------- all months

  /** The year-month loop from `yearMonths[0]` on, reading each month with `read` and
      adding it to `acc`. */
  function PeriodsFrom(read: string -> Run<Period>, yearMonths: seq<string>, acc: map<string, Period>)
    : (r: Run<map<string, Period>>)
    decreases |yearMonths|
  {
    if |yearMonths| == 0 then Run(Ok(acc), [])
    else
      var p := read(yearMonths[0]);
      match p.result
      case Err(e) => Run(Err(e), p.sent)
      case Ok(period) => Prepend(p.sent, PeriodsFrom(read, yearMonths[1..], acc[yearMonths[0] := period]))
  }

  /** One step of the walk, taken at position `i` of the offered year-months. */
  lemma PeriodsFromStep(read: string -> Run<Period>, yearMonths: seq<string>, i: nat, acc: map<string, Period>)
    requires i < |yearMonths|
    ensures var p := read(yearMonths[i]);
            PeriodsFrom(read, yearMonths[i..], acc)
            == if p.result.Err? then Run(Err(p.result.error), p.sent)
               else Prepend(p.sent, PeriodsFrom(read, yearMonths[i + 1..], acc[yearMonths[i] := p.result.value]))
  {
    assert yearMonths[i..][0] == yearMonths[i];
    assert yearMonths[i..][1..] == yearMonths[i + 1..];
  }

  function TimestampRequest(k: Kind): Request
  {
    Get(USER_URL + "/" + Path(k))
  }

  function MonthReader(k: Kind, net: Net, csrf: string): string -> Run<Period>
  {
    ym => PeriodSpec(k, net, csrf, ym)
  }

  /** `get_*_details` past the gate: the months offered by the report's page, each read in turn. */
  function DetailsSpec(k: Kind, net: Net, csrf: string): (r: Run<map<string, Period>>)
  {
    var req := TimestampRequest(k);
    var resp := net.respond(req);
    if !resp.Ok() then Run(Err(HttpError("get " + Noun(k) + " timestamp", resp)), [req])
    else Prepend([req], PeriodsFrom(MonthReader(k, net, csrf), net.xpath(YEAR_MONTH_XPATH, resp.text), map[]))
  }

  /**
   * On success the result has one entry per offered year-month (a repeated one
   * keeps one entry), each the month as read on its own, besides what was in `acc`.
   */
  lemma {:induction false} PeriodsFromKeys(read: string -> Run<Period>, yearMonths: seq<string>,
                                           acc: map<string, Period>)
    ensures var r := PeriodsFrom(read, yearMonths, acc);
            r.result.Ok? ==>
              && r.result.value.Keys == acc.Keys + (set ym | ym in yearMonths)
              && (forall ym :: ym in yearMonths ==> read(ym).result.Ok? && r.result.value[ym] == read(ym).result.value)
              && forall key :: key in acc && key !in yearMonths ==> r.result.value[key] == acc[key]
    decreases |yearMonths|
  {
    if |yearMonths| > 0 {
      var ym := yearMonths[0];
      var p := read(ym);
      if p.result.Ok? {
        PeriodsFromKeys(read, yearMonths[1..], acc[ym := p.result.value]);
        assert forall x :: x in yearMonths <==> x == ym || x in yearMonths[1..];
      }
    }
  }

  /** The report's months are exactly the year-months its first page offers. */
  lemma DetailsKeys(k: Kind, net: Net, csrf: string)
    ensures var r := DetailsSpec(k, net, csrf);
            r.result.Ok? ==>
              var offered := net.xpath(YEAR_MONTH_XPATH, net.respond(TimestampRequest(k)).text);
              && r.sent[0] == TimestampRequest(k)
              && r.result.value.Keys == (set ym | ym in offered)
              && forall ym :: ym in offered ==>
                   PeriodSpec(k, net, csrf, ym).result.Ok? && r.result.value[ym] == PeriodSpec(k, net, csrf, ym).result.value
  {
    var resp := net.respond(TimestampRequest(k));
    if resp.Ok() {
      var offered := net.xpath(YEAR_MONTH_XPATH, resp.text);
      var read := MonthReader(k, net, csrf);
      var months := PeriodsFrom(read, offered, map[]);
      PeriodsFromKeys(read, offered, map[]);
      assert DetailsSpec(k, net, csrf) == Prepend([TimestampRequest(k)], months);
      if months.result.Ok? {
        forall ym | ym in offered
          ensures PeriodSpec(k, net, csrf, ym).result.Ok?
          ensures months.result.value[ym] == PeriodSpec(k, net, csrf, ym).result.value
        {
          assert read(ym) == PeriodSpec(k, net, csrf, ym);
        }
      }
    }
  }

  /** The requests of reading each of `yearMonths` in turn. */
  function MonthsSent(read: string -> Run<Period>, yearMonths: seq<string>): seq<Request>
    decreases |yearMonths|
  {
    if |yearMonths| == 0 then [] else read(yearMonths[0]).sent + MonthsSent(read, yearMonths[1..])
  }

  /**
   * The walk over year-months completes exactly when every offered month is read,
   * and then it has sent each month's requests in the offered order.
   */
  lemma {:induction false} PeriodsFromOk(read: string -> Run<Period>, yearMonths: seq<string>,
                                         acc: map<string, Period>)
    ensures var r := PeriodsFrom(read, yearMonths, acc);
            && (r.result.Ok? <==> forall ym :: ym in yearMonths ==> read(ym).result.Ok?)
            && (r.result.Ok? ==> r.sent == MonthsSent(read, yearMonths))
    decreases |yearMonths|
  {
    if |yearMonths| > 0 {
      var ym := yearMonths[0];
      var p := read(ym);
      if p.result.Ok? {
        PeriodsFromOk(read, yearMonths[1..], acc[ym := p.result.value]);
        assert forall x :: x in yearMonths <==> x == ym || x in yearMonths[1..];
      }
    }
  }

  /** The walk failed at `yearMonths[n]`, the first month that could not be read. */
  ghost predicate MonthFailsAt(read: string -> Run<Period>, yearMonths: seq<string>, n: nat,
                               r: Run<map<string, Period>>)
  {
    && n < |yearMonths|
    && (forall j :: 0 <= j < n ==> read(yearMonths[j]).result.Ok?)
    && read(yearMonths[n]).result.Err?
    && r.result == Err(read(yearMonths[n]).result.error)
    && r.sent == MonthsSent(read, yearMonths[..n]) + read(yearMonths[n]).sent
  }

  lemma MonthFailsAtStep(read: string -> Run<Period>, yearMonths: seq<string>, n: nat,
                         r: Run<map<string, Period>>, rest: Run<map<string, Period>>)
    requires |yearMonths| > 0 && read(yearMonths[0]).result.Ok?
    requires r == Prepend(read(yearMonths[0]).sent, rest) && MonthFailsAt(read, yearMonths[1..], n, rest)
    ensures MonthFailsAt(read, yearMonths, n + 1, r)
  {
    var prefix := yearMonths[..n + 1];
    assert prefix[0] == yearMonths[0] && prefix[1..] == yearMonths[1..][..n];
    assert MonthsSent(read, prefix) == read(yearMonths[0]).sent + MonthsSent(read, yearMonths[1..][..n]);
    assert yearMonths[n + 1] == yearMonths[1..][n];
    forall j | 0 <= j < n + 1 ensures read(yearMonths[j]).result.Ok? {
      if j > 0 {
        assert yearMonths[j] == yearMonths[1..][j - 1];
      }
    }
  }

  /**
   * A walk that fails stops at the first month that cannot be read: it raises
   * that month's error, having sent the earlier months' requests and that month's.
   */
  lemma {:induction false} PeriodsFromErr(read: string -> Run<Period>, yearMonths: seq<string>,
                                          acc: map<string, Period>)
    ensures PeriodsFrom(read, yearMonths, acc).result.Err? ==>
              exists n: nat :: MonthFailsAt(read, yearMonths, n, PeriodsFrom(read, yearMonths, acc))
    decreases |yearMonths|
  {
    var r := PeriodsFrom(read, yearMonths, acc);
    if |yearMonths| > 0 && r.result.Err? {
      var p := read(yearMonths[0]);
      if p.result.Ok? {
        var next := acc[yearMonths[0] := p.result.value];
        var rest := PeriodsFrom(read, yearMonths[1..], next);
        PeriodsFromErr(read, yearMonths[1..], next);
        var n: nat :| MonthFailsAt(read, yearMonths[1..], n, rest);
        MonthFailsAtStep(read, yearMonths, n, r, rest);
      } else {
        assert yearMonths[..0] == [];
        assert MonthFailsAt(read, yearMonths, 0, r);
      }
    }
  }

  /**
   * How a report fails: the timestamp page's HTTP error after that one request,
   * or else the first offered month that cannot be read, after the months before it.
   */
  lemma DetailsErrors(k: Kind, net: Net, csrf: string)
    ensures var resp := net.respond(TimestampRequest(k));
            var r := DetailsSpec(k, net, csrf);
            && (!resp.Ok() ==> r == Run(Err(HttpError("get " + Noun(k) + " timestamp", resp)), [TimestampRequest(k)]))
            && (resp.Ok() && r.result.Err? ==>
                  && r.sent[0] == TimestampRequest(k)
                  && exists n: nat :: MonthFailsAt(MonthReader(k, net, csrf), net.xpath(YEAR_MONTH_XPATH, resp.text),
                                                   n, Run(r.result, r.sent[1..])))
  {
    var resp := net.respond(TimestampRequest(k));
    if resp.Ok() {
      var offered := net.xpath(YEAR_MONTH_XPATH, resp.text);
      var months := PeriodsFrom(MonthReader(k, net, csrf), offered, map[]);
      PeriodsFromErr(MonthReader(k, net, csrf), offered, map[]);
      var r := DetailsSpec(k, net, csrf);
      assert r == Run(months.result, [TimestampRequest(k)] + months.sent);
      assert Run(r.result, r.sent[1..]) == months;
    }
  }

  /** A report completes exactly when its first page loads and every month it offers is read. */
  lemma DetailsSucceeds(k: Kind, net: Net, csrf: string)
    ensures var resp := net.respond(TimestampRequest(k));
            DetailsSpec(k, net, csrf).result.Ok? <==>
              && resp.Ok()
              && forall ym :: ym in net.xpath(YEAR_MONTH_XPATH, resp.text) ==> PeriodSpec(k, net, csrf, ym).result.Ok?
  {
    var resp := net.respond(TimestampRequest(k));
    if resp.Ok() {
      var read := MonthReader(k, net, csrf);
      PeriodsFromOk(read, net.xpath(YEAR_MONTH_XPATH, resp.text), map[]);
      forall ym ensures read(ym) == PeriodSpec(k, net, csrf, ym) {}
    }
  }
}
