/**
 * The background ingestion job: a job record moves from PENDING through PROCESSING to
 * COMPLETED or FAILED while the pages of an uploaded statement are read in chunks of
 * 50, parsed, categorized and stored, with a commit after every chunk and a progress
 * update after every commit.
 *
 * The database session is a `Database` object: `pending` holds what `db.add` staged,
 * `rows` what has been committed, and `log` one snapshot of the job per commit, so the
 * order of commits is observable. The run is proved against `Run`, a function from the
 * state before the run to the state after it.
 */
module Processing {
  import opened Wrappers
  import opened Text
  import opened PdfParser
  import opened LlmCategorizer

  /** Pages per chunk. */
  const CHUNK_SIZE: nat := 50
  /** The user every stored transaction and every uploaded job belongs to. */
  const DEFAULT_USER: string := "default_user"

  datatype JobStatus = PENDING | PROCESSING | COMPLETED | FAILED

  /** A page of the opened document: loadable with its text layers, or raising on load. */
  datatype PageSlot = Loaded(page: Page) | LoadError

  /** A row of the transactions table (the date column is not modelled). */
  datatype StoredTxn = StoredTxn(
    userId: string,
    description: string,
    merchant: string,
    amount: real,
    txnType: TxnType,
    category: string,
    upiId: Option<string>,
    isRecurring: bool)

  /** The job's columns as one commit writes them, with the number of rows committed so far. */
  datatype Snapshot = Snapshot(jobId: string, status: JobStatus, progress: real, totalPages: nat, rowCount: nat)

  // ---------------------------------------------------------------------------
  // Chunks and chunk text
  // ---------------------------------------------------------------------------

  /** The last page (exclusive) of the chunk starting at `start`. */
  function ChunkEnd(start: nat, total: nat): (e: nat)
    requires start < total
    ensures start < e <= total
    ensures e == total || e == start + CHUNK_SIZE
  {
    Min(start + CHUNK_SIZE, total)
  }

  /**
   * The chunks `[i, min(i+50, total))` for i = 0, 50, ... are the batches of the page
   * list: in order they make up all pages, every chunk but the last has 50 pages, and
   * there are ceil(total / 50) of them.
   */
  lemma ChunksPartitionPages(slots: seq<PageSlot>)
    ensures Flatten(Batches(slots, CHUNK_SIZE)) == slots
    ensures |slots| <= |Batches(slots, CHUNK_SIZE)| * CHUNK_SIZE < |slots| + CHUNK_SIZE
    ensures forall k :: 0 <= k < |Batches(slots, CHUNK_SIZE)| - 1 ==> |Batches(slots, CHUNK_SIZE)[k]| == CHUNK_SIZE
    ensures forall k :: 0 <= k < |Batches(slots, CHUNK_SIZE)| ==> 0 < |Batches(slots, CHUNK_SIZE)[k]| <= CHUNK_SIZE
  {
    BatchesShape(slots, CHUNK_SIZE);
  }

  /** Batch n from `start` is the chunk beginning n chunks after `start`. */
  lemma {:induction false} ChunkIsBatchFrom(slots: seq<PageSlot>, start: nat, n: nat)
    requires start + n * CHUNK_SIZE < |slots|
    ensures n < |BatchesFrom(slots, start, CHUNK_SIZE)|
    ensures BatchesFrom(slots, start, CHUNK_SIZE)[n]
         == slots[start + n * CHUNK_SIZE..ChunkEnd(start + n * CHUNK_SIZE, |slots|)]
    decreases n
  {
    BatchesFromStep(slots, start, CHUNK_SIZE);
    if n > 0 {
      ChunkIsBatchFrom(slots, start + CHUNK_SIZE, n - 1);
    }
  }

  /**
   * The chunks the run visits, at pages 0, 50, 100, ..., are exactly the batches of
   * `ChunksPartitionPages`: chunk n exists exactly when batch n does, and they are equal.
   */
  lemma ChunksAreBatches(slots: seq<PageSlot>, n: nat)
    ensures n * CHUNK_SIZE < |slots| <==> n < |Batches(slots, CHUNK_SIZE)|
    ensures n * CHUNK_SIZE < |slots| ==>
              Batches(slots, CHUNK_SIZE)[n] == slots[n * CHUNK_SIZE..ChunkEnd(n * CHUNK_SIZE, |slots|)]
  {
    BatchesShape(slots, CHUNK_SIZE);
    if n * CHUNK_SIZE < |slots| {
      ChunkIsBatchFrom(slots, 0, n);
    }
  }

  /**
   * The text of a run of pages: each page's text followed by a newline, in page order;
   * `None` when some page raises on load.
   */
  function SlotsText(slots: seq<PageSlot>): Option<string>
    decreases |slots|
  {
    if slots == [] then Some("")
    else
      var last := slots[|slots| - 1];
      var init := SlotsText(slots[..|slots| - 1]);
      if init.None? || last.LoadError? then None
      else Some(init.value + (ExtractTextFromPage(last.page) + "\n"))
  }

  /** The text is missing exactly when some page raises on load. */
  lemma {:induction false} SlotsTextFails(slots: seq<PageSlot>)
    ensures SlotsText(slots).None? <==> exists k :: 0 <= k < |slots| && slots[k].LoadError?
    decreases |slots|
  {
    if slots != [] {
      var init := slots[..|slots| - 1];
      SlotsTextFails(init);
      assert forall k :: 0 <= k < |init| ==> init[k] == slots[k];
    }
  }

  /** A loaded page after a run of pages adds its text and a newline. */
  lemma SlotsTextSnoc(slots: seq<PageSlot>, slot: PageSlot)
    requires slot.Loaded?
    ensures SlotsText(slots + [slot]).Some? <==> SlotsText(slots).Some?
    ensures SlotsText(slots).Some? ==>
              SlotsText(slots + [slot]).value == SlotsText(slots).value + (ExtractTextFromPage(slot.page) + "\n")
  {
    assert (slots + [slot])[..|slots|] == slots;
  }

  /** A non-empty sequence is its front and its last element, also after a prefix. */
  lemma SplitLast<T>(a: seq<T>, b: seq<T>)
    requires b != []
    ensures b == b[..|b| - 1] + [b[|b| - 1]]
    ensures a + b == (a + b[..|b| - 1]) + [b[|b| - 1]]
  {
  }

  lemma ConcatAssoc(x: string, y: string, z: string)
    ensures x + y + z == x + (y + z)
  {
  }

  /** The text of two runs of pages is the text of the first followed by that of the second. */
  lemma {:induction false} SlotsTextAppend(a: seq<PageSlot>, b: seq<PageSlot>)
    requires SlotsText(a).Some? && SlotsText(b).Some?
    ensures SlotsText(a + b) == Some(SlotsText(a).value + SlotsText(b).value)
    decreases |b|
  {
    if b == [] {
      assert a + b == a;
      assert SlotsText(a).value + "" == SlotsText(a).value;
    } else {
      var init, last := b[..|b| - 1], b[|b| - 1];
      assert SlotsText(init).Some? && last.Loaded?;
      var x, y, z := SlotsText(a).value, SlotsText(init).value, ExtractTextFromPage(last.page) + "\n";
      var ai := a + init;
      SlotsTextAppend(a, init);
      assert SlotsText(ai) == Some(x + y);
      SplitLast(a, b);
      SlotsTextSnoc(ai, last);
      SlotsTextSnoc(init, last);
      assert SlotsText(ai + [last]) == Some(x + y + z);
      assert SlotsText(init + [last]) == Some(y + z);
      ConcatAssoc(x, y, z);
    }
  }

  /** One loaded page contributes its extracted text and a newline. */
  lemma SlotsTextSingle(page: Page)
    ensures SlotsText([Loaded(page)]) == Some(ExtractTextFromPage(page) + "\n")
  {
    assert [Loaded(page)][..0] == [];
    assert "" + (ExtractTextFromPage(page) + "\n") == ExtractTextFromPage(page) + "\n";
  }

  /** Extending a slice by one element. */
  lemma SliceSnoc<T>(s: seq<T>, i: nat, j: nat)
    requires i <= j < |s|
    ensures s[i..j + 1] == s[i..j] + [s[j]]
  {
  }

  /**
   * The inner page loop: the text of the pages `first .. last-1`, or `None` as soon as a
   * page raises on load.
   */
  method BuildChunkText(slots: seq<PageSlot>, first: nat, last: nat) returns (r: Option<string>)
    requires first <= last <= |slots|
    ensures r == SlotsText(slots[first..last])
  {
    var chunkText := "";
    var pageNum := first;
    assert slots[first..pageNum] == [];
    while pageNum < last
      invariant first <= pageNum <= last
      invariant SlotsText(slots[first..pageNum]) == Some(chunkText)
      decreases last - pageNum
    {
      if slots[pageNum].LoadError? {
        assert slots[first..last][pageNum - first].LoadError?;
        SlotsTextFails(slots[first..last]);
        return None;
      }
      SliceSnoc(slots, first, pageNum);
      SlotsTextSnoc(slots[first..pageNum], slots[pageNum]);
      chunkText := chunkText + (ExtractTextFromPage(slots[pageNum].page) + "\n");
      pageNum := pageNum + 1;
    }
    return Some(chunkText);
  }

  // ---------------------------------------------------------------------------
  // Merchants, categories and stored rows of one chunk
  // ---------------------------------------------------------------------------

  /** The non-empty merchants of the parsed records, in record order. */
  function MerchantsOf(parsed: seq<ParsedTxn>): (ms: seq<string>)
    ensures forall m :: m in ms <==> exists k :: 0 <= k < |parsed| && parsed[k].merchant == m && m != ""
    decreases |parsed|
  {
    if parsed == [] then []
    else
      var init := MerchantsOf(parsed[..|parsed| - 1]);
      var m := parsed[|parsed| - 1].merchant;
      assert forall k :: 0 <= k < |parsed| - 1 ==> parsed[..|parsed| - 1][k] == parsed[k];
      if m == "" then init else init + [m]
  }

  /** The elements of `xs` without repeats, each at its first occurrence. */
  function Distinct(xs: seq<string>): (r: seq<string>)
    ensures forall x :: x in r <==> x in xs
    ensures forall a, b :: 0 <= a < b < |r| ==> r[a] != r[b]
    decreases |xs|
  {
    if xs == [] then []
    else
      var init := Distinct(xs[..|xs| - 1]);
      var x := xs[|xs| - 1];
      assert xs == xs[..|xs| - 1] + [x];
      if x in init then init else init + [x]
  }

  /**
   * `list(set(...))` of the non-empty merchants. Python's set order is not specified;
   * the model keeps first occurrences in record order.
   */
  function UniqueMerchants(parsed: seq<ParsedTxn>): seq<string> {
    Distinct(MerchantsOf(parsed))
  }

  /** Every merchant of a record appears once in the unique list, and nothing else does. */
  lemma UniqueMerchantsOfRecords(parsed: seq<ParsedTxn>)
    ensures forall m :: m in UniqueMerchants(parsed) <==> m != "" && exists k :: 0 <= k < |parsed| && parsed[k].merchant == m
    ensures forall a, b :: 0 <= a < b < |UniqueMerchants(parsed)| ==> UniqueMerchants(parsed)[a] != UniqueMerchants(parsed)[b]
  {
    var ms := MerchantsOf(parsed);
    assert UniqueMerchants(parsed) == Distinct(ms);
  }

  /** The category map of a chunk: no call for no merchants, else batches of 50. */
  function MerchantCategories(merchants: seq<string>, reply: seq<string> -> Option<string>): map<string, string> {
    if merchants == [] then map[] else BatchedResult(merchants, DEFAULT_BATCH_SIZE, reply)
  }

  /** The categorizer requests a chunk makes. */
  function CategorizerCalls(merchants: seq<string>): (calls: seq<seq<string>>)
    ensures calls == [] <==> merchants == []
    ensures Flatten(calls) == merchants
  {
    if merchants == [] then []
    else
      BatchesShape(merchants, DEFAULT_BATCH_SIZE);
      Batches(merchants, DEFAULT_BATCH_SIZE)
  }

  /** The row stored for one parsed record, its category looked up with "Other" as default. */
  function StoredRow(t: ParsedTxn, cats: map<string, string>): StoredTxn {
    StoredTxn(DEFAULT_USER, t.description, t.merchant, t.amount, t.txnType,
              if t.merchant in cats then cats[t.merchant] else DEFAULT_CATEGORY,
              t.upiId, false)
  }

  /** The rows of the parsed records, one per record, in parse order. */
  function StoredRows(parsed: seq<ParsedTxn>, cats: map<string, string>): (rows: seq<StoredTxn>)
    ensures |rows| == |parsed|
    ensures forall k :: 0 <= k < |parsed| ==> rows[k] == StoredRow(parsed[k], cats)
  {
    seq(|parsed|, k requires 0 <= k < |parsed| => StoredRow(parsed[k], cats))
  }

  /** The rows one chunk's text produces. */
  function ChunkRows(text: string, reply: seq<string> -> Option<string>): seq<StoredTxn> {
    var parsed := Parse(text);
    StoredRows(parsed, MerchantCategories(UniqueMerchants(parsed), reply))
  }

  /** The rows of a chunk are those of its parse under its category map. */
  lemma ChunkRowsOfParse(text: string, reply: seq<string> -> Option<string>, parsed: seq<ParsedTxn>, cats: map<string, string>)
    requires parsed == Parse(text) && cats == MerchantCategories(UniqueMerchants(parsed), reply)
    ensures StoredRows(parsed, cats) == ChunkRows(text, reply)
  {
  }

  /**
   * Each stored row carries its record's fields, belongs to the default user, is not
   * recurring, and has the category the model gave its merchant, or "Other".
   */
  lemma ChunkRowsFollowRecords(text: string, reply: seq<string> -> Option<string>)
    ensures |ChunkRows(text, reply)| == |Parse(text)|
    ensures forall k :: 0 <= k < |Parse(text)| ==>
              var t, row := Parse(text)[k], ChunkRows(text, reply)[k];
              && row.userId == DEFAULT_USER && !row.isRecurring
              && row.description == t.description && row.merchant == t.merchant
              && row.amount == t.amount && row.txnType == t.txnType && row.upiId == t.upiId
              && (t.merchant in MerchantCategories(UniqueMerchants(Parse(text)), reply) ==>
                    row.category == MerchantCategories(UniqueMerchants(Parse(text)), reply)[t.merchant])
              && (t.merchant !in MerchantCategories(UniqueMerchants(Parse(text)), reply) ==>
                    row.category == DEFAULT_CATEGORY)
  {
    var parsed := Parse(text);
    var cats := MerchantCategories(UniqueMerchants(parsed), reply);
    assert ChunkRows(text, reply) == StoredRows(parsed, cats);
  }

  /** Rows built from a map whose every category is "Other" are all filed under "Other". */
  lemma StoredRowsAllDefault(parsed: seq<ParsedTxn>, cats: map<string, string>)
    requires forall m | m in cats :: cats[m] == DEFAULT_CATEGORY
    ensures forall k :: 0 <= k < |parsed| ==> StoredRows(parsed, cats)[k].category == DEFAULT_CATEGORY
  {
  }

  /** When every call to the model fails, every row of the chunk is filed under "Other". */
  lemma ChunkRowsWhenCallsFail(text: string, reply: seq<string> -> Option<string>)
    requires forall b :: reply(b).None?
    ensures forall k :: 0 <= k < |ChunkRows(text, reply)| ==> ChunkRows(text, reply)[k].category == DEFAULT_CATEGORY
  {
    var parsed := Parse(text);
    var ms := UniqueMerchants(parsed);
    if ms != [] {
      AllCallsFailed(ms, DEFAULT_BATCH_SIZE, reply);
    }
    StoredRowsAllDefault(parsed, MerchantCategories(ms, reply));
  }

  // ---------------------------------------------------------------------------
  // Progress
  // ---------------------------------------------------------------------------

  /** `end_page / total_pages * 100`, exactly. */
  function Progress(endPage: nat, total: nat): real
    requires total > 0
  {
    (endPage as real / total as real) * 100.0
  }

  /** Dividing by a positive number keeps the order. */
  lemma DivideKeepsOrder(x: real, y: real, t: real)
    requires x < y && t > 0.0
    ensures x / t < y / t
  {
    assert y / t - x / t == (y - x) / t;
  }

  /** Progress grows strictly with the end page and is 100 after the last page. */
  lemma ProgressGrows(e1: nat, e2: nat, total: nat)
    requires total > 0 && e1 < e2
    ensures Progress(e1, total) < Progress(e2, total)
    ensures Progress(total, total) == 100.0
    ensures e2 <= total ==> 0.0 < Progress(e2, total) <= 100.0
  {
    var t := total as real;
    DivideKeepsOrder(e1 as real, e2 as real, t);
    assert t / t == 1.0;
    DivideKeepsOrder(0.0, e2 as real, t);
    if e2 < total {
      DivideKeepsOrder(e2 as real, t, t);
    }
  }

  /** Successive chunk ends increase strictly, and the last chunk ends at the last page. */
  lemma ChunkEndsGrow(start: nat, total: nat)
    requires start < total
    ensures start + CHUNK_SIZE < total ==> ChunkEnd(start, total) < ChunkEnd(start + CHUNK_SIZE, total)
    ensures start + CHUNK_SIZE >= total <==> ChunkEnd(start, total) == total
  {
  }

  // ---------------------------------------------------------------------------
  // The run as a function of the state before it
  // ---------------------------------------------------------------------------

  /** The job's columns. */
  datatype JobFields = JobFields(id: string, status: JobStatus, progress: real, totalPages: nat)

  /** What a run can change: the job, the committed rows, the commit log and the model calls. */
  datatype World = World(job: JobFields, rows: seq<StoredTxn>, log: seq<Snapshot>, requests: seq<seq<string>>)

  /** `db.commit()` with `added` staged: the rows land and the job's columns are logged. */
  function CommitW(w: World, added: seq<StoredTxn>): (r: World)
    ensures r.job == w.job && r.requests == w.requests && r.rows == w.rows + added
    ensures r.log == w.log + [Snapshot(w.job.id, w.job.status, w.job.progress, w.job.totalPages, |r.rows|)]
  {
    var rows := w.rows + added;
    w.(rows := rows, log := w.log + [Snapshot(w.job.id, w.job.status, w.job.progress, w.job.totalPages, |rows|)])
  }

  function WithStatus(w: World, s: JobStatus): World {
    w.(job := w.job.(status := s))
  }

  /** What one chunk's text yields: the categorizer requests made and the rows to store. */
  datatype ChunkOutput = ChunkOutput(calls: seq<seq<string>>, rows: seq<StoredTxn>)

  /** Parsing, categorizing and building the rows of one chunk's text. */
  function ChunkWork(text: string, reply: seq<string> -> Option<string>): ChunkOutput {
    ChunkOutput(CategorizerCalls(UniqueMerchants(Parse(text))), ChunkRows(text, reply))
  }

  /** `ChunkWork` with the model fixed. */
  function WorkOf(reply: seq<string> -> Option<string>): string -> ChunkOutput {
    text => ChunkWork(text, reply)
  }

  /**
   * One chunk whose pages all load: its rows are committed (with the model's requests
   * made), and only then is the new progress committed.
   */
  function ChunkDone(w: World, out: ChunkOutput, endPage: nat, total: nat): (r: World)
    requires total > 0
    ensures r.job == w.job.(progress := Progress(endPage, total))
    ensures r.rows == w.rows + out.rows
    ensures r.requests == w.requests + out.calls
    ensures r.log == w.log + [Snapshot(w.job.id, w.job.status, w.job.progress, w.job.totalPages, |r.rows|),
                              Snapshot(w.job.id, w.job.status, Progress(endPage, total), w.job.totalPages, |r.rows|)]
  {
    var stored := CommitW(w.(requests := w.requests + out.calls), out.rows);
    CommitW(WithProgress(stored, Progress(endPage, total)), [])
  }

  /** The model's requests of a chunk may as well be made before its commits. */
  lemma ChunkDoneAfterCalls(w: World, out: ChunkOutput, endPage: nat, total: nat)
    requires total > 0
    ensures ChunkDone(w.(requests := w.requests + out.calls), ChunkOutput([], out.rows), endPage, total)
         == ChunkDone(w, out, endPage, total)
  {
    assert w.requests + out.calls + [] == w.requests + out.calls;
  }

  function WithProgress(w: World, p: real): World {
    w.(job := w.job.(progress := p))
  }

  /** The chunk loop from the chunk starting at page `i`. */
  function RunChunks(w: World, slots: seq<PageSlot>, i: nat, work: string -> ChunkOutput): World
    decreases |slots| - i
  {
    if i >= |slots| then
      CommitW(w.(job := w.job.(status := COMPLETED, progress := 100.0)), [])
    else
      var endPage := ChunkEnd(i, |slots|);
      match SlotsText(slots[i..endPage])
      case None => CommitW(WithStatus(w, FAILED), [])
      case Some(text) => RunChunks(ChunkDone(w, work(text), endPage, |slots|), slots, i + CHUNK_SIZE, work)
  }

  /**
   * `process_pdf_background` for an existing job: PROCESSING is committed, then the
   * document is opened (`None` when that raises) and its page count committed, then the
   * chunks run.
   */
  function Run(w: World, doc: Option<seq<PageSlot>>, work: string -> ChunkOutput): World {
    var started := CommitW(WithStatus(w, PROCESSING), []);
    match doc
    case None => CommitW(WithStatus(started, FAILED), [])
    case Some(slots) => RunChunks(CommitW(started.(job := started.job.(totalPages := |slots|)), []), slots, 0, work)
  }

  /**
   * From any chunk on, the loop ends COMPLETED, with progress 100, exactly when no
   * remaining page raises, and FAILED otherwise; the job's id and page count stay.
   */
  lemma {:induction false} RunChunksStatus(w: World, slots: seq<PageSlot>, i: nat, work: string -> ChunkOutput)
    ensures var r := RunChunks(w, slots, i, work);
      && (r.job.status == COMPLETED || r.job.status == FAILED)
      && (r.job.status == COMPLETED <==> forall k :: i <= k < |slots| ==> slots[k].Loaded?)
      && (r.job.status == COMPLETED ==> r.job.progress == 100.0)
      && r.job.id == w.job.id && r.job.totalPages == w.job.totalPages
    decreases |slots| - i
  {
    if i < |slots| {
      var endPage := ChunkEnd(i, |slots|);
      var chunk := slots[i..endPage];
      SlotsTextFails(chunk);
      match SlotsText(chunk)
      case None =>
        var k :| 0 <= k < |chunk| && chunk[k].LoadError?;
        assert slots[i + k].LoadError?;
      case Some(text) =>
        RunChunksStatus(ChunkDone(w, work(text), endPage, |slots|), slots, i + CHUNK_SIZE, work);
        assert forall k :: i <= k < endPage ==> slots[k] == chunk[k - i];
    }
  }

  /** The last commit of `w`'s log shows its job's columns and row count as they are. */
  ghost predicate LastCommitShowsJob(w: World) {
    |w.log| > 0 && w.log[|w.log| - 1] == Snapshot(w.job.id, w.job.status, w.job.progress, w.job.totalPages, |w.rows|)
  }

  /** A commit logs the job's columns as they are. */
  lemma CommitShowsJob(w: World, added: seq<StoredTxn>)
    ensures LastCommitShowsJob(CommitW(w, added))
  {
  }

  /** The loop's last commit shows the job as the loop leaves it. */
  lemma {:induction false} RunChunksLastCommit(w: World, slots: seq<PageSlot>, i: nat, work: string -> ChunkOutput)
    ensures LastCommitShowsJob(RunChunks(w, slots, i, work))
    decreases |slots| - i
  {
    if i >= |slots| {
      CommitShowsJob(w.(job := w.job.(status := COMPLETED, progress := 100.0)), []);
    } else {
      var endPage := ChunkEnd(i, |slots|);
      match SlotsText(slots[i..endPage])
      case None =>
        CommitShowsJob(WithStatus(w, FAILED), []);
      case Some(text) =>
        var next := ChunkDone(w, work(text), endPage, |slots|);
        assert RunChunks(w, slots, i, work) == RunChunks(next, slots, i + CHUNK_SIZE, work);
        RunChunksLastCommit(next, slots, i + CHUNK_SIZE, work);
    }
  }

  /** An entry of a prefix of a sequence is the entry of the sequence. */
  lemma PrefixEntry<T>(xs: seq<T>, prefix: seq<T>, k: nat)
    requires |prefix| <= |xs| && xs[..|prefix|] == prefix && k < |prefix|
    ensures xs[k] == prefix[k]
  {
    assert xs[k] == xs[..|prefix|][k];
  }

  /** The loop only appends: to the committed rows, to the commit log and to the requests. */
  lemma {:induction false} RunChunksKeeps(w: World, slots: seq<PageSlot>, i: nat, work: string -> ChunkOutput)
    ensures var r := RunChunks(w, slots, i, work);
      && |w.rows| <= |r.rows| && r.rows[..|w.rows|] == w.rows
      && |w.log| < |r.log| && r.log[..|w.log|] == w.log
      && |w.requests| <= |r.requests| && r.requests[..|w.requests|] == w.requests
    decreases |slots| - i
  {
    if i < |slots| {
      var endPage := ChunkEnd(i, |slots|);
      match SlotsText(slots[i..endPage])
      case None =>
      case Some(text) =>
        var next := ChunkDone(w, work(text), endPage, |slots|);
        RunChunksKeeps(next, slots, i + CHUNK_SIZE, work);
        var r := RunChunks(next, slots, i + CHUNK_SIZE, work);
        assert r.rows[..|w.rows|] == next.rows[..|w.rows|];
        assert r.log[..|w.log|] == next.log[..|w.log|];
        assert r.requests[..|w.requests|] == next.requests[..|w.requests|];
    }
  }

  /**
   * A run ends COMPLETED or FAILED; COMPLETED exactly when the document opens and every
   * page loads, and then with progress 100 and the page count recorded. Nothing
   * committed before the run is lost, whichever way it ends.
   */
  lemma RunOutcome(w: World, doc: Option<seq<PageSlot>>, work: string -> ChunkOutput)
    ensures var r := Run(w, doc, work);
      && (r.job.status == COMPLETED || r.job.status == FAILED)
      && (r.job.status == COMPLETED <==> doc.Some? && forall k :: 0 <= k < |doc.value| ==> doc.value[k].Loaded?)
      && (r.job.status == COMPLETED ==> r.job.progress == 100.0 && r.job.totalPages == |doc.value|)
      && (w.job.progress < 100.0 && r.job.status == FAILED ==> r.job.progress < 100.0)
      && r.job.id == w.job.id
      && |w.rows| <= |r.rows| && r.rows[..|w.rows|] == w.rows
      && |w.log| < |r.log| && r.log[..|w.log|] == w.log
  {
    var started := CommitW(WithStatus(w, PROCESSING), []);
    match doc
    case None =>
    case Some(slots) =>
      var openedW := CommitW(started.(job := started.job.(totalPages := |slots|)), []);
      RunChunksStatus(openedW, slots, 0, work);
      RunChunksKeeps(openedW, slots, 0, work);
      if w.job.progress < 100.0 {
        RunChunksFailedBelow(openedW, slots, 0, work);
      }
      var r := RunChunks(openedW, slots, 0, work);
      assert r.rows[..|w.rows|] == openedW.rows[..|w.rows|];
      assert r.log[..|w.log|] == openedW.log[..|w.log|];
  }

  /** A loop started below 100 that ends FAILED also ends below 100. */
  lemma {:induction false} RunChunksFailedBelow(w: World, slots: seq<PageSlot>, i: nat, work: string -> ChunkOutput)
    requires w.job.progress < 100.0
    ensures var r := RunChunks(w, slots, i, work); r.job.status == FAILED ==> r.job.progress < 100.0
    decreases |slots| - i
  {
    if i < |slots| {
      var endPage := ChunkEnd(i, |slots|);
      match SlotsText(slots[i..endPage])
      case None =>
      case Some(text) =>
        var next := ChunkDone(w, work(text), endPage, |slots|);
        assert RunChunks(w, slots, i, work) == RunChunks(next, slots, i + CHUNK_SIZE, work);
        if i + CHUNK_SIZE < |slots| {
          ProgressGrows(endPage, |slots|, |slots|);
          RunChunksFailedBelow(next, slots, i + CHUNK_SIZE, work);
        }
    }
  }

  /** Every snapshot from `from` on, except the last, shows the job PROCESSING. */
  ghost predicate ProcessingUntilLast(log: seq<Snapshot>, from: nat) {
    forall a :: from <= a < |log| - 1 ==> log[a].status == PROCESSING
  }

  /** From `from` on, no snapshot shows less progress than an earlier one or than `p`. */
  ghost predicate ProgressNeverFalls(log: seq<Snapshot>, from: nat, p: real) {
    && (forall a :: from <= a < |log| ==> p <= log[a].progress)
    && (forall a, b :: from <= a < b < |log| ==> log[a].progress <= log[b].progress)
  }

  /** Two PROCESSING snapshots in front of a log that is PROCESSING until its last. */
  lemma ProcessingExtend(log: seq<Snapshot>, from: nat)
    requires from + 2 < |log| && log[from].status == PROCESSING && log[from + 1].status == PROCESSING
    requires ProcessingUntilLast(log, from + 2)
    ensures ProcessingUntilLast(log, from)
  {
  }

  /** Two snapshots of progress p0 <= p in front of a log that never falls below p. */
  lemma NeverFallsExtend(log: seq<Snapshot>, from: nat, p0: real, p: real)
    requires from + 2 <= |log| && log[from].progress == p0 && log[from + 1].progress == p && p0 <= p
    requires ProgressNeverFalls(log, from + 2, p)
    ensures ProgressNeverFalls(log, from, p0)
  {
    forall a, b | from <= a < b < |log| ensures log[a].progress <= log[b].progress {
      if a < from + 2 && b >= from + 2 {
        assert log[a].progress <= p <= log[b].progress;
      }
    }
  }

  /**
   * While the loop runs, every commit shows the job PROCESSING; only the last commit
   * shows the outcome.
   */
  lemma {:induction false} RunChunksStatusLog(w: World, slots: seq<PageSlot>, i: nat, work: string -> ChunkOutput)
    requires w.job.status == PROCESSING
    ensures ProcessingUntilLast(RunChunks(w, slots, i, work).log, |w.log|)
    decreases |slots| - i
  {
    if i < |slots| {
      var endPage := ChunkEnd(i, |slots|);
      match SlotsText(slots[i..endPage])
      case None =>
      case Some(text) =>
        var next := ChunkDone(w, work(text), endPage, |slots|);
        RunChunksStatusLog(next, slots, i + CHUNK_SIZE, work);
        RunChunksKeeps(next, slots, i + CHUNK_SIZE, work);
        var log := RunChunks(next, slots, i + CHUNK_SIZE, work).log;
        var n := |next.log|;
        PrefixEntry(log, next.log, n - 2);
        PrefixEntry(log, next.log, n - 1);
        ProcessingExtend(log, |w.log|);
    }
  }

  /** A chunk's progress is at most 100 and at most that of the chunk after it. */
  lemma NextChunkProgress(i: nat, total: nat)
    requires i < total
    ensures 0.0 < Progress(ChunkEnd(i, total), total) <= 100.0
    ensures i + CHUNK_SIZE < total ==> Progress(ChunkEnd(i, total), total) < Progress(ChunkEnd(i + CHUNK_SIZE, total), total)
  {
    ProgressGrows(0, ChunkEnd(i, total), total);
    if i + CHUNK_SIZE < total {
      ChunkEndsGrow(i, total);
      ProgressGrows(ChunkEnd(i, total), ChunkEnd(i + CHUNK_SIZE, total), total);
    }
  }

  /** A log that extends a chunk's two commits and never falls after them never falls from before them. */
  lemma ChunkProgressStep(w: World, out: ChunkOutput, i: nat, total: nat, log: seq<Snapshot>)
    requires i < total && w.job.progress <= Progress(ChunkEnd(i, total), total)
    requires var next := ChunkDone(w, out, ChunkEnd(i, total), total);
      |next.log| <= |log| && log[..|next.log|] == next.log && ProgressNeverFalls(log, |next.log|, next.job.progress)
    ensures ProgressNeverFalls(log, |w.log|, w.job.progress)
  {
    var next := ChunkDone(w, out, ChunkEnd(i, total), total);
    var n := |next.log|;
    PrefixEntry(log, next.log, n - 2);
    PrefixEntry(log, next.log, n - 1);
    NeverFallsExtend(log, |w.log|, w.job.progress, next.job.progress);
  }

  /**
   * Progress only grows across the commits of the loop, provided the job's progress is
   * at most that of the chunk about to run.
   */
  lemma {:induction false} RunChunksProgress(w: World, slots: seq<PageSlot>, i: nat, work: string -> ChunkOutput)
    requires w.job.progress <= 100.0
    requires i < |slots| ==> w.job.progress <= Progress(ChunkEnd(i, |slots|), |slots|)
    ensures ProgressNeverFalls(RunChunks(w, slots, i, work).log, |w.log|, w.job.progress)
    decreases |slots| - i
  {
    if i < |slots| {
      var endPage := ChunkEnd(i, |slots|);
      match SlotsText(slots[i..endPage])
      case None =>
      case Some(text) =>
        var next := ChunkDone(w, work(text), endPage, |slots|);
        NextChunkProgress(i, |slots|);
        RunChunksProgress(next, slots, i + CHUNK_SIZE, work);
        RunChunksKeeps(next, slots, i + CHUNK_SIZE, work);
        ChunkProgressStep(w, work(text), i, |slots|, RunChunks(next, slots, i + CHUNK_SIZE, work).log);
    }
  }

  /** The last commit of a run shows the job as the run leaves it. */
  lemma RunLastCommit(w: World, doc: Option<seq<PageSlot>>, work: string -> ChunkOutput)
    ensures var r := Run(w, doc, work);
      |r.log| > 0 && r.log[|r.log| - 1] == Snapshot(r.job.id, r.job.status, r.job.progress, r.job.totalPages, |r.rows|)
  {
    var started := CommitW(WithStatus(w, PROCESSING), []);
    match doc
    case None =>
      CommitShowsJob(WithStatus(started, FAILED), []);
    case Some(slots) =>
      var openedW := CommitW(started.(job := started.job.(totalPages := |slots|)), []);
      RunChunksLastCommit(openedW, slots, 0, work);
  }

  /**
   * The commits of a run: every one but the last shows the job PROCESSING, and the
   * last shows it COMPLETED or FAILED, with the job's final columns.
   */
  lemma RunCommitStatuses(w: World, doc: Option<seq<PageSlot>>, work: string -> ChunkOutput)
    ensures var r := Run(w, doc, work);
      && |w.log| + 2 <= |r.log| && ProcessingUntilLast(r.log, |w.log|)
      && r.log[|r.log| - 1] == Snapshot(r.job.id, r.job.status, r.job.progress, r.job.totalPages, |r.rows|)
      && (r.log[|r.log| - 1].status == COMPLETED || r.log[|r.log| - 1].status == FAILED)
  {
    RunOutcome(w, doc, work);
    RunLastCommit(w, doc, work);
    match doc
    case None =>
    case Some(slots) =>
      var started := CommitW(WithStatus(w, PROCESSING), []);
      var openedW := CommitW(started.(job := started.job.(totalPages := |slots|)), []);
      RunChunksStatusLog(openedW, slots, 0, work);
      RunChunksKeeps(openedW, slots, 0, work);
      var log := RunChunks(openedW, slots, 0, work).log;
      var n := |openedW.log|;
      PrefixEntry(log, openedW.log, n - 2);
      PrefixEntry(log, openedW.log, n - 1);
      forall a | |w.log| <= a < |log| - 1 ensures log[a].status == PROCESSING {
        if a < n {
          assert a == n - 2 || a == n - 1;
        }
      }
  }

  /**
   * For a job starting from progress 0, as a new job does, progress never falls from
   * one commit of a run to the next; in particular a failure does not reset it.
   */
  lemma RunProgressNeverFalls(w: World, doc: Option<seq<PageSlot>>, work: string -> ChunkOutput)
    requires w.job.progress == 0.0
    ensures ProgressNeverFalls(Run(w, doc, work).log, |w.log|, 0.0)
  {
    match doc
    case None =>
    case Some(slots) =>
      var started := CommitW(WithStatus(w, PROCESSING), []);
      var openedW := CommitW(started.(job := started.job.(totalPages := |slots|)), []);
      if 0 < |slots| {
        ProgressGrows(0, ChunkEnd(0, |slots|), |slots|);
      }
      RunChunksProgress(openedW, slots, 0, work);
      RunChunksKeeps(openedW, slots, 0, work);
      var log := RunChunks(openedW, slots, 0, work).log;
      var n := |openedW.log|;
      PrefixEntry(log, openedW.log, n - 2);
      PrefixEntry(log, openedW.log, n - 1);
      NeverFallsExtend(log, |w.log|, 0.0, 0.0);
  }

  /** A document without pages completes at once: progress 100, no rows, no model calls. */
  lemma RunWithoutPages(w: World, work: string -> ChunkOutput)
    ensures Run(w, Some([]), work).job == w.job.(status := COMPLETED, progress := 100.0, totalPages := 0)
    ensures Run(w, Some([]), work).rows == w.rows
    ensures Run(w, Some([]), work).requests == w.requests
    ensures |Run(w, Some([]), work).log| == |w.log| + 3
  {
    var started := CommitW(WithStatus(w, PROCESSING), []);
    var openedW := CommitW(started.(job := started.job.(totalPages := 0)), []);
    assert Run(w, Some([]), work) == RunChunks(openedW, [], 0, work);
  }

  // ---------------------------------------------------------------------------
  // The job, the session and the runner
  // ---------------------------------------------------------------------------

  /** A row of the processing_jobs table. */
  class ProcessingJob {
    const id: string
    const userId: string
    var status: JobStatus
    var progress: real
    var totalPages: nat

    /** A new job with the column defaults: PENDING, progress 0, no pages. */
    constructor (id: string, userId: string)
      ensures this.id == id && this.userId == userId
      ensures status == PENDING && progress == 0.0 && totalPages == 0
    {
      this.id := id;
      this.userId := userId;
      status := PENDING;
      progress := 0.0;
      totalPages := 0;
    }
  }

  /** A database session. */
  class Database {
    /** The processing_jobs table, by id. */
    var jobs: map<string, ProcessingJob>
    /** Rows staged by `db.add` and not yet committed. */
    var pending: seq<StoredTxn>
    /** The committed rows of the transactions table, in insertion order. */
    var rows: seq<StoredTxn>
    /** One snapshot of the committed job per commit, oldest first. */
    var log: seq<Snapshot>

    constructor ()
      ensures jobs == map[] && pending == [] && rows == [] && log == []
    {
      jobs := map[];
      pending := [];
      rows := [];
      log := [];
    }

    /** `db.add(row)`. */
    method Add(row: StoredTxn)
      modifies this
      ensures pending == old(pending) + [row]
      ensures jobs == old(jobs) && rows == old(rows) && log == old(log)
    {
      pending := pending + [row];
    }

    /** `db.commit()` after changes to `job`: staged rows land and the job's columns are logged. */
    method Commit(job: ProcessingJob)
      modifies this
      ensures rows == old(rows) + old(pending) && pending == []
      ensures log == old(log) + [Snapshot(job.id, job.status, job.progress, job.totalPages, |rows|)]
      ensures jobs == old(jobs)
    {
      rows := rows + pending;
      pending := [];
      log := log + [Snapshot(job.id, job.status, job.progress, job.totalPages, |rows|)];
    }
  }

  /** The job registered under `id`, as a frame. */
  function JobSet(jobs: map<string, ProcessingJob>, id: string): set<ProcessingJob> {
    if id in jobs then {jobs[id]} else {}
  }

  /** The part of the state a run changes, as a `World`. */
  function WorldOf(db: Database, job: ProcessingJob, client: ChatClient): World
    reads db, job, client
  {
    World(JobFields(job.id, job.status, job.progress, job.totalPages), db.rows, db.log, client.requests)
  }

  /** The `db.add` loop: the rows staged in order. */
  method StoreRows(db: Database, rows: seq<StoredTxn>)
    modifies db
    ensures db.pending == old(db.pending) + rows
    ensures db.jobs == old(db.jobs) && db.rows == old(db.rows) && db.log == old(db.log)
  {
    var k := 0;
    while k < |rows|
      invariant 0 <= k <= |rows|
      invariant db.pending == old(db.pending) + rows[..k]
      invariant db.jobs == old(db.jobs) && db.rows == old(db.rows) && db.log == old(db.log)
      decreases |rows| - k
    {
      SliceSnoc(rows, 0, k);
      db.Add(rows[k]);
      k := k + 1;
    }
    assert rows[..k] == rows;
  }

  /**
   * Parse one chunk's text, categorize its distinct non-empty merchants when there are
   * any (an error from the categorizer leaves the map empty), and build the rows to store.
   */
  method ChunkTransactions(text: string, client: ChatClient) returns (parsed: seq<ParsedTxn>, cats: map<string, string>)
    modifies client
    ensures parsed == Parse(text)
    ensures cats == MerchantCategories(UniqueMerchants(parsed), client.reply)
    ensures client.requests == old(client.requests) + CategorizerCalls(UniqueMerchants(parsed))
  {
    parsed := ParseUpiTransactions(text);
    var uniqueMerchants := UniqueMerchants(parsed);
    cats := map[];
    if uniqueMerchants != [] {
      var categorized := BatchedCategorization(uniqueMerchants, DEFAULT_BATCH_SIZE, client);
      if categorized.Success? {
        cats := categorized.value;
      }
    }
  }

  /**
   * One pass of the chunk loop over pages `i .. min(i+50, total)-1`: build the text,
   * turn it into rows, stage and commit them, then commit the new progress. It reports
   * `false`, having changed nothing, when a page raises on load.
   */
  method ProcessChunk(db: Database, job: ProcessingJob, client: ChatClient, slots: seq<PageSlot>, i: nat)
    returns (ok: bool)
    requires i < |slots| && db.pending == []
    modifies db, job, client
    ensures db.jobs == old(db.jobs) && db.pending == []
    ensures ok <==> SlotsText(slots[i..ChunkEnd(i, |slots|)]).Some?
    ensures !ok ==> WorldOf(db, job, client) == old(WorldOf(db, job, client))
    ensures ok ==>
              WorldOf(db, job, client)
                == ChunkDone(old(WorldOf(db, job, client)),
                             ChunkWork(SlotsText(slots[i..ChunkEnd(i, |slots|)]).value, client.reply),
                             ChunkEnd(i, |slots|), |slots|)
  {
    var totalPages := |slots|;
    var endPage := Min(i + CHUNK_SIZE, totalPages);
    var chunkText := BuildChunkText(slots, i, endPage);
    if chunkText.None? {
      return false;
    }
    ghost var w0 := WorldOf(db, job, client);
    var parsed, merchantCatMap := ChunkTransactions(chunkText.value, client);
    ghost var w1 := WorldOf(db, job, client);
    CommitChunk(db, job, client, StoredRows(parsed, merchantCatMap), endPage, totalPages);
    ChunkRowsOfParse(chunkText.value, client.reply, parsed, merchantCatMap);
    ChunkDoneAfterCalls(w0, ChunkWork(chunkText.value, client.reply), endPage, totalPages);
    assert w1 == w0.(requests := w0.requests + ChunkWork(chunkText.value, client.reply).calls);
    return true;
  }

  /**
   * Staging a chunk's rows with `db.add`, committing them, and then committing the
   * chunk's progress.
   */
  method CommitChunk(db: Database, job: ProcessingJob, client: ChatClient, rows: seq<StoredTxn>, endPage: nat, totalPages: nat)
    requires totalPages > 0 && db.pending == []
    modifies db, job
    ensures db.jobs == old(db.jobs) && db.pending == []
    ensures WorldOf(db, job, client) == ChunkDone(old(WorldOf(db, job, client)), ChunkOutput([], rows), endPage, totalPages)
  {
    ghost var expected := ChunkDone(WorldOf(db, job, client), ChunkOutput([], rows), endPage, totalPages);
    StoreRows(db, rows);
    db.Commit(job);
    assert db.rows == expected.rows;
    job.progress := Progress(endPage, totalPages);
    db.Commit(job);
    assert job.progress == expected.job.progress;
    assert db.log == expected.log && client.requests == expected.requests;
  }

  /**
   * `process_pdf_background(job_id, file_path)`, with the opened document given as its
   * pages (`None` when opening raises) and the model as `client`. An unknown id changes
   * nothing; otherwise the state afterwards is `Run` of the state before.
   */
  method ProcessPdfBackground(db: Database, jobId: string, doc: Option<seq<PageSlot>>, client: ChatClient)
    requires db.pending == []
    modifies db, client, JobSet(db.jobs, jobId)
    ensures db.jobs == old(db.jobs) && db.pending == []
    ensures jobId !in db.jobs ==> unchanged(db, client)
    ensures jobId in db.jobs ==>
              WorldOf(db, db.jobs[jobId], client) == Run(old(WorldOf(db, db.jobs[jobId], client)), doc, WorkOf(client.reply))
  {
    if jobId !in db.jobs {
      return;
    }
    var job := db.jobs[jobId];
    ghost var w0 := WorldOf(db, job, client);
    ghost var reply := client.reply;
    job.status := PROCESSING;
    db.Commit(job);
    if doc.None? {
      job.status := FAILED;
      db.Commit(job);
      return;
    }
    var slots := doc.value;
    job.totalPages := |slots|;
    db.Commit(job);
    RunChunkLoop(db, job, client, slots);
  }

  /**
   * The chunk loop of `process_pdf_background` over the pages of an opened document:
   * chunk by chunk until a page raises (FAILED) or none is left (COMPLETED, progress 100).
   */
  method RunChunkLoop(db: Database, job: ProcessingJob, client: ChatClient, slots: seq<PageSlot>)
    requires db.pending == [] && job.status == PROCESSING && job.totalPages == |slots|
    modifies db, job, client
    ensures db.jobs == old(db.jobs) && db.pending == []
    ensures WorldOf(db, job, client) == RunChunks(old(WorldOf(db, job, client)), slots, 0, WorkOf(client.reply))
  {
    ghost var reply := client.reply;
    ghost var goal := RunChunks(WorldOf(db, job, client), slots, 0, WorkOf(reply));
    var totalPages := |slots|;
    var i: nat := 0;
    while i < totalPages
      invariant db.jobs == old(db.jobs) && db.pending == []
      invariant job.status == PROCESSING && job.totalPages == totalPages
      invariant RunChunks(WorldOf(db, job, client), slots, i, WorkOf(reply)) == goal
      decreases totalPages - i
    {
      var ok := ProcessChunk(db, job, client, slots, i);
      if !ok {
        job.status := FAILED;
        db.Commit(job);
        return;
      }
      i := i + CHUNK_SIZE;
    }
    job.status := COMPLETED;
    job.progress := 100.0;
    db.Commit(job);
  }

  /** The HTTP error `upload_statement` raises. */
  datatype HttpError = HttpError(statusCode: nat, detail: string)

  /**
   * The filename check and job creation of `upload_statement`: a name not ending in
   * ".pdf" is refused with a 400 before any job exists; otherwise a new PENDING job of
   * the default user is added under a fresh id and committed.
   */
  method UploadStatement(db: Database, filename: string, newId: string) returns (r: Result<ProcessingJob, HttpError>)
    requires newId !in db.jobs
    modifies db
    ensures !EndsWith(filename, ".pdf") ==> r == Failure(HttpError(400, "Only PDF files are allowed")) && unchanged(db)
    ensures EndsWith(filename, ".pdf") ==>
              && r.Success? && fresh(r.value)
              && r.value.id == newId && r.value.userId == DEFAULT_USER
              && r.value.status == PENDING && r.value.progress == 0.0 && r.value.totalPages == 0
              && db.jobs == old(db.jobs)[newId := r.value]
              && db.rows == old(db.rows) + old(db.pending) && db.pending == []
              && db.log == old(db.log) + [Snapshot(newId, PENDING, 0.0, 0, |db.rows|)]
  {
    if !EndsWith(filename, ".pdf") {
      return Failure(HttpError(400, "Only PDF files are allowed"));
    }
    var job := new ProcessingJob(newId, DEFAULT_USER);
    db.jobs := db.jobs[newId := job];
    db.Commit(job);
    return Success(job);
  }
}
