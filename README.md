# UPI statement ingestion, modelled in Dafny

This project models the document-to-transaction pipeline of a UPI statement analyzer.
An uploaded PDF statement becomes a processing job. A background run reads the
statement's pages in chunks of 50. It takes each page's text, falling back to OCR for
pages with little embedded text. It parses the chunk's text into transaction records
with a line-level state machine. It asks a chat model to categorize the chunk's
distinct merchants, in batches of 50. It stores one row per record and commits after
every chunk. The job's status goes from PENDING to PROCESSING and then to COMPLETED
or FAILED. Its progress is committed after each chunk.

The model has six files:

- `wrappers.dfy` holds `Option` and `Result`.
- `text.dfy` holds the Python string operations the pipeline uses, over ASCII:
  `strip`, `split`, `join`, `startswith`, `endswith`, `upper`, `replace(p, "")` and
  slicing. It includes the `split`/`join` round trips.
- `pdf_parser.dfy` models `extract_text_from_page` and `parse_upi_transactions`.
  - `Parse` is the statement parser as a recursive function over the lines.
  - `ParseUpiTransactions` and `ReadBlock` are the imperative scanner, with its
    cursor loop and its merchant-line loop, proved equal to `Parse`.
- `pdf_parser_example.dfy` traces one statement excerpt through the parser.
- `llm_categorizer.dfy` models `categorize_merchants` and `batched_categorization`.
  - The chat model is a `ChatClient` object. It logs each batch it is asked about.
    Its reply to a batch is a fixed function of that batch: a reply text, or `None`
    when the call raises.
  - The reply-reading loop and the batch loop are methods proved against
    `ResponseMap` and `BatchedResult`.
- `processing.dfy` models `process_pdf_background` and the filename check and job
  creation of `upload_statement`.
  - The session is a `Database` object:
    - `pending` holds what `db.add` staged;
    - `rows` holds the committed transactions;
    - `log` holds one `Snapshot` of the job's columns per commit, so the order of
      commits is observable.
  - The job is a `ProcessingJob` object.
  - The opened document is a sequence of `PageSlot`s. A page either loads, giving its
    native text and its OCR outcome, or raises on load. The whole document is
    `None` when opening it raises.
  - `ProcessPdfBackground` is proved against `Run`, a function from the state before
    a run to the state after it. The lemmas about `Run` state the status machine,
    the progress, and that committed rows are never lost.
  - `Run` takes the work done on one chunk's text as a parameter. The method
    instantiates it with `WorkOf(reply)`: parse the text, categorize its merchants,
    build the rows. So the lemmas about `Run` hold for any chunk work.

The model follows the code where a looser reading of the pipeline would suggest
otherwise:

- For a direction phrase outside the four canonical ones, the code derives the
  merchant by removing only "Paid to", "Received from" and "Sent to" from the
  description (pdf_parser.py:67). "Added to" is not removed, so "Money Added to" +
  "Wallet" keeps the merchant "Money Added to Wallet" (`WalletTopUp`).
- The batch maps are merged with `dict.update`, so on a merchant shared by two
  batches the later batch's category wins (llm_categorizer.py:58), not the first.
- The code maps a batch to "Other" only when the model call raises
  (llm_categorizer.py:47-50). A reply with no well-formed line gives an empty map, and
  the merchants then get "Other" only through the lookup default when rows are
  stored (processing.py:69).
- The code does not check that a category belongs to the fixed taxonomy. The model
  stores whatever category the reply gives.

## Model

| member | source | states |
|---|---|---|
| Text.Strip | pdf_parser.py:31 | the result neither starts nor ends with whitespace, and it is empty exactly when the input is all whitespace |
| Text.StripIsSlice | pdf_parser.py:31 | the result is a slice `s[a..b]` of the input with only whitespace before `a` and from `b` on; with `Strip`'s own contract, the slice is the longest one |
| Text.StripIdempotent | pdf_parser.py:31 | stripping twice is stripping once |
| Text.SplitJoin | pdf_parser.py:31 | joining the pieces of `s.split(sep)` with `sep` gives `s` back |
| Text.Split | pdf_parser.py:31 | `split` on one character gives at least one piece, and no piece holds the separator |
| Text.JoinSplit | pdf_parser.py:60 | splitting a join of separator-free pieces gives the pieces back |
| Text.Join | pdf_parser.py:60 | `sep.join(parts)` (a definition; its contract is in `SplitJoin` and `JoinSplit`) |
| Text.StartsWith | pdf_parser.py:56 | `s.startswith(prefix)` (a definition, used by `IsStopLine`) |
| Text.EndsWith | processing.py:103 | `s.endswith(suffix)` (a definition, used by `UploadStatement`) |
| Text.SplitCount | llm_categorizer.py:43-44 | `split` on a character gives one piece more than there are separators |
| Text.RemoveAllAbsent | pdf_parser.py:50 | `replace(p, "")` changes nothing when `p` does not occur |
| Text.RemoveAll | pdf_parser.py:50 | `replace(p, "")` never lengthens the string |
| Text.RemoveAllAt | pdf_parser.py:67 | at the leftmost occurrence of the pattern, the text before it is kept, the occurrence is dropped and the removal goes on after it; with `RemoveAllAbsent` this fixes `replace(p, "")` on every string |
| Text.FirstCharAbsentAppend | pdf_parser.py:67 | a pattern cannot occur in `x + y` when its first character is not in `x` and it does not occur in `y` |
| Text.RemoveCharAppend | pdf_parser.py:50 | removing a one-character pattern from a concatenation removes it from each part |
| Text.RemoveCharSingle | pdf_parser.py:50 | a single character is dropped exactly when it is the pattern, so `replace(",", "")` drops every comma and keeps everything else in order |
| Text.FirstCharAbsent | pdf_parser.py:67 | a pattern whose first character does not occur in the string does not occur in it |
| Text.UpperChar | pdf_parser.py:41 | a lower-case ASCII letter becomes the capital of the same letter (`'a'` + k becomes `'A'` + k); any other character stays |
| Text.Upper | pdf_parser.py:41 | `upper` keeps the length and applies `UpperChar` to each character |
| Text.Take | pdf_parser.py:74-75 | `s[:n]` is a prefix of `s` of length `min(n, len(s))` |
| PdfParser.ExtractTextFromPage | pdf_parser.py:8-23 | native text unchanged when its stripped length is at least 50; otherwise the OCR text, or "" when rendering or OCR raises |
| PdfParser.NonBlankLines | pdf_parser.py:31 | no more lines than raw lines, each non-empty and already stripped |
| PdfParser.NonBlankLinesAppend | pdf_parser.py:31 | the filter of a concatenation is the concatenation of the filters |
| PdfParser.NonBlankLinesSingle | pdf_parser.py:31 | one raw line contributes its stripped form exactly when that is non-empty, so the lines are the stripped non-blank raw lines in order |
| PdfParser.Lines | pdf_parser.py:31 | `text.split('\n')` filtered: at most one line more than the text has newlines, each non-empty and stripped |
| PdfParser.TypeOf | pdf_parser.py:41-43 | DEBIT or CREDIT exactly when the upper-cased line is that name; `None` when it is neither |
| PdfParser.NonBlankLinesKeepsStripped | pdf_parser.py:31 | lines that are already stripped and non-empty all survive, in order |
| PdfParser.FirstAmountRun | pdf_parser.py:49 | `None` exactly when the line has no digit, '.' or ','; otherwise a non-empty run of such characters that starts at the first of them in the line and is maximal (the line ends or the next character is none of them), and that is digits and dots once its commas are removed |
| PdfParser.LeadingRun | pdf_parser.py:49 | the longest prefix made of digits, '.' and ',': a prefix of the line, all amount characters, and followed by none |
| PdfParser.ParseFloat | pdf_parser.py:50 | `float` of digits and dots fails exactly when there are two dots or no digit; a success is never negative |
| PdfParser.ParseAmount | pdf_parser.py:47-50 | the `float` of the first numeric run with its commas removed; 0.0 when the line has no numeric run; never negative |
| PdfParser.IsStopLine | pdf_parser.py:56 | a line ends the merchant scan when it starts with "Transaction ID", "Bank Reference" or "UTR No", or matches the date anchor (a definition, used by `TailEnd`) |
| PdfParser.TailEnd | pdf_parser.py:54-58 | the merchant scan stops at the first stop line (metadata prefix or date anchor) at or after i+5, or at the end |
| PdfParser.BlockEnd | pdf_parser.py:54-58 | where the merchant scan of an accepted block stops, which the cursor then jumps to (pdf_parser.py:82): at least five lines on, at most the end |
| PdfParser.RemovalsAbsent | pdf_parser.py:67 | the three `replace` calls leave unchanged a description that mentions none of "Paid to", "Received from", "Sent to" |
| PdfParser.RemovalsAfterLeading | pdf_parser.py:67 | a description that opens with one of the three phrases, with none of them after it, loses exactly that opening phrase |
| PdfParser.RemovalsOf | pdf_parser.py:67 | the two cases together: no removed phrase leaves the description as it is, and a leading one is cut off |
| PdfParser.Describe | pdf_parser.py:62-67 | a canonical phrase gives merchant = tail and description = phrase + " " + tail; another phrase gives description = phrase, followed by " " + tail when the tail is non-empty, and the merchant is the stripped description when it mentions no removed phrase, or the stripped rest after a leading removed phrase when only that one occurs |
| PdfParser.OrUnknown | pdf_parser.py:69-70 | "Unknown" in place of an empty merchant (a definition) |
| PdfParser.FallbackMerchant | pdf_parser.py:65-75 | the stored merchant of a non-canonical description: its strip when it holds no removed phrase, the strip of the rest when it opens with one and holds no other, each "Unknown" when empty and cut to 255 (a definition, used in `MakeRecord`'s contract) |
| PdfParser.MakeRecord | pdf_parser.py:60-81 | date, type and amount kept; merchant non-empty and both text fields at most 255 characters; a canonical phrase with a tail gives merchant = tail and description = phrase + " " + tail, each cut to 255; a canonical phrase without a tail gives merchant "Unknown" and description phrase + " "; another phrase gives description = phrase, followed by " " + tail when the tail is non-empty, cut to 255; when that description mentions no removed phrase, merchant = its strip, and when it opens with a removed phrase and has no other, merchant = the strip of the rest, each "Unknown" when empty and cut to 255; category and upi_id unset, not recurring |
| PdfParser.BlockRecord | pdf_parser.py:38-81 | an accepted block's record is well formed, its date is the anchor line, its type is line i+2 upper-cased, its amount is read from line i+3 |
| PdfParser.WellFormed | pdf_parser.py:72-81 | what every emitted record satisfies: a date-anchor date, a non-empty merchant, both text fields at most 255 characters, a non-negative amount, no category, no UPI id, not recurring (a definition; see `ScanFromWellFormed`) |
| PdfParser.IsDateLine | pdf_parser.py:38 | the date-anchor regex: a capital and two lower-case letters, whitespace, one or two digits, a comma, whitespace and exactly four digits, and nothing else (a definition; `ExampleDate` shows "Feb 21, 2026" matches) |
| PdfParser.Accepted | pdf_parser.py:39-52 | a date anchor starts a record exactly when lines i+1 to i+4 exist, line i+2 is DEBIT or CREDIT and the amount of line i+3 parses; otherwise the `except` (pdf_parser.py:83-84) or the type check skips one line (a definition, used by `ScanFrom` and `ReadBlock`) |
| PdfParser.ScanFrom | pdf_parser.py:34-86 | each record takes at least five lines, so at most a fifth of the remaining lines become records |
| PdfParser.Parse | pdf_parser.py:25-88 | at most one record per five non-blank lines of the text |
| PdfParser.ScanFromWellFormed | pdf_parser.py:34-86 | every record the scan emits is well formed |
| PdfParser.ParseWellFormed | pdf_parser.py:25-88 | every record of the parse is well formed |
| PdfParser.ScanFromMatchesStarts | pdf_parser.py:34-86 | record k is the record of the block at the k-th accepted start line, so records come in text order |
| PdfParser.StartsAreSeparated | pdf_parser.py:54-58 | block starts lie at or after the cursor, and each later start lies at or after the line where the previous block's merchant scan stopped, so blocks never overlap |
| PdfParser.UncoveredAcceptedIsStart | pdf_parser.py:34-86 | the converse of `ScanFromMatchesStarts`: an accepted line that no earlier block's merchant scan covers is a block start |
| PdfParser.AcceptedAnchorEmitted | pdf_parser.py:34-86 | so the record of every such accepted line is among the records |
| PdfParser.NoAnchorNoRecords | pdf_parser.py:34-38 | lines without a date anchor yield no record |
| PdfParser.ParseWithoutAnchors | pdf_parser.py:25-38 | text with no date-anchor line parses to nothing |
| PdfParser.BadTypeSkipsOneLine | pdf_parser.py:41-45 | an anchor whose line i+2 is missing or is neither DEBIT nor CREDIT moves the cursor on by exactly one line |
| PdfParser.BadAmountSkipsOneLine | pdf_parser.py:49-50 | an amount that `float` rejects drops the candidate, and the cursor moves on by exactly one line |
| PdfParser.ShortTailYieldsNothing | pdf_parser.py:41-52 | when fewer than five lines are left from line i, the scan from i yields no record |
| PdfParser.JoinOfStrippedLines | pdf_parser.py:60 | joining stripped non-empty lines with spaces gives a string that `strip` leaves unchanged |
| PdfParser.BlockTailIsJoinedLines | pdf_parser.py:54-60 | the merchant tail is exactly the lines from i+5 to the stop line joined with single spaces |
| PdfParser.ReadBlock | pdf_parser.py:39-84 | the `try` body gives `None` exactly when the candidate is not accepted, and otherwise the block's record and the line where the merchant scan stopped |
| PdfParser.ScanTakesBlock | pdf_parser.py:72-82 | after an accepted block the record is appended and scanning resumes at the stop line |
| PdfParser.ScanSkipsLine | pdf_parser.py:83-86 | a line starting no accepted block is skipped |
| PdfParser.ParseUpiTransactions | pdf_parser.py:25-88 | the cursor loop returns exactly `Parse(text)`, and every record is well formed |
| PdfParserExample.ExampleLines | pdf_parser.py:31 | the seven lines of the example come back unchanged from the line split |
| PdfParserExample.ExampleAmount | pdf_parser.py:47-50 | "₹250.00" reads as 250 |
| PdfParserExample.ExampleBlock | pdf_parser.py:38-81 | the example block is accepted, its merchant scan stops at "Transaction ID 123", and its record is the Coffee House debit of 250 |
| PdfParserExample.CoffeeHouseExample | pdf_parser.py:25-88 | the example excerpt parses to exactly one record: "Paid to Coffee House", merchant "Coffee House", 250.0, DEBIT, no category, no UPI id, not recurring |
| PdfParserExample.CleanDescriptionIsMerchant | pdf_parser.py:65-70 | with a non-canonical phrase, a description that is already stripped, mentions no removed phrase and fits 255 characters is also the merchant |
| PdfParserExample.WalletTopUp | pdf_parser.py:62-70 | a "Money Added to" line followed by "Wallet" gives the merchant "Money Added to Wallet": "Added to" is not removed |
| PdfParserExample.LeadingPhraseIsRemoved | pdf_parser.py:62-70 | a non-canonical direction line that opens with a removed phrase, with no other after it, gives the stripped rest as merchant |
| PdfParserExample.OneLineDirection | pdf_parser.py:62-70 | the one-line direction "Paid to Zomato" is not canonical, and its merchant is "Zomato" |
| PdfParserExample.ExampleCommaAmount | pdf_parser.py:47-50 | "₹1,250.50" reads as 1250.5: the thousands separator is dropped |
| LlmCategorizer.PairOf | llm_categorizer.py:43-45 | a reply line gives a pair only when it contains a '\|' |
| LlmCategorizer.PairOfIsSplit | llm_categorizer.py:43-45 | `line.split('\|')` has two parts exactly when `PairOf` gives a pair, and the pair is the two stripped parts |
| LlmCategorizer.ReplyLines | llm_categorizer.py:42 | the reply lines are `response_text.strip().split('\n')` (a definition) |
| LlmCategorizer.ResponseMap | llm_categorizer.py:41-46 | `result_map` built line by line, a later pair overwriting an earlier one (a definition; its contract is in `ResponseMapKeys` and `ResponseMapLastWins`) |
| LlmCategorizer.ResponseMapKeys | llm_categorizer.py:41-46 | a merchant is in `result_map` exactly when some reply line is a pair with that key |
| LlmCategorizer.ResponseMapLastWins | llm_categorizer.py:41-46 | the value of a key is the category of the last line carrying that key |
| LlmCategorizer.ReadReply | llm_categorizer.py:41-46 | the loop over the stripped, split reply builds exactly `ResponseMap` of its lines |
| LlmCategorizer.DefaultCategories | llm_categorizer.py:50 | maps every merchant of the batch, and only those, to "Other" |
| LlmCategorizer.FailedCallDefaults | llm_categorizer.py:47-50 | a failed call maps every merchant of the batch, and only those, to "Other" |
| LlmCategorizer.CategorizeResult | llm_categorizer.py:9-50 | the value of `categorize_merchants`: `{}` for no merchants, the defaults when the call raises, otherwise the map read from the reply (a definition, which `CategorizeMerchants` is proved to return) |
| LlmCategorizer.ChatClient.Complete | llm_categorizer.py:30-39 | one request about the batch is logged, and the model's reply to it is returned |
| LlmCategorizer.CategorizeMerchants | llm_categorizer.py:9-50 | an empty list makes no request and gives `{}`; otherwise exactly one request, and the map read from the reply or defaulted on failure |
| LlmCategorizer.BatchesFromFlatten | llm_categorizer.py:55-56 | the batches from an offset concatenate to the rest of the list |
| LlmCategorizer.BatchesFromCount | llm_categorizer.py:55 | there are ceil(remaining / size) batches |
| LlmCategorizer.BatchesFromSizes | llm_categorizer.py:55-56 | every batch but the last holds `size` merchants; each holds between 1 and `size` |
| LlmCategorizer.BatchesShape | llm_categorizer.py:55-56 | batches are consecutive slices of `batch_size`, only the last possibly shorter, concatenating to the input, ceil(n / size) of them |
| LlmCategorizer.BatchesFrom | llm_categorizer.py:55-56 | the slices `merchants[i:i+size]` for i from an offset in steps of `size` (a definition; its contract is in `BatchesFromFlatten`, `BatchesFromCount` and `BatchesFromSizes`) |
| LlmCategorizer.Batches | llm_categorizer.py:55-56 | the batches from offset 0 (a definition; its contract is in `BatchesShape`) |
| LlmCategorizer.HundredTwentyMerchants | llm_categorizer.py:55-57 | 120 merchants at size 50 make three calls, of 50, 50 and 20 |
| LlmCategorizer.MergeAllKeys | llm_categorizer.py:54-58 | the merged key set is the union of the batch key sets |
| LlmCategorizer.MergeAllLastWins | llm_categorizer.py:58 | on a shared key the later batch map wins |
| LlmCategorizer.MergeAll | llm_categorizer.py:58 | the batch maps folded with `update`, starting from `{}` (a definition; its contract is in `MergeAllKeys` and `MergeAllLastWins`) |
| LlmCategorizer.BatchedResult | llm_categorizer.py:52-59 | the value of `batched_categorization`: the merge of the results of the batches (a definition, which `CategorizeInBatches` is proved to return) |
| LlmCategorizer.BatchMapsAt | llm_categorizer.py:55-57 | map k is the result of categorizing batch k |
| LlmCategorizer.BatchMaps | llm_categorizer.py:55-57 | one result map per batch, one for each `categorize_merchants` call |
| LlmCategorizer.MergeBatchStep | llm_categorizer.py:57-58 | one more batch is one more `update` |
| LlmCategorizer.TakeBatch | llm_categorizer.py:55-56 | taking the batch at an offset advances the offset by the batch size |
| LlmCategorizer.AllCallsFailed | llm_categorizer.py:47-59 | when every call fails, every merchant, and nothing else, is mapped to "Other" |
| LlmCategorizer.BatchedCategorization | llm_categorizer.py:52-59 | a zero batch size raises; a negative one yields `{}` with no request; a positive one makes one request per batch, in order, and returns the merged map |
| LlmCategorizer.CategorizeInBatches | llm_categorizer.py:54-59 | the loop makes exactly the batches as requests and returns `BatchedResult` |
| Processing.ChunkEnd | processing.py:40 | a chunk ends after its start, at most at the last page, and at the start plus 50 unless it ends at the last page |
| Processing.ChunksPartitionPages | processing.py:38-40 | the chunks concatenate to all pages in order, each but the last has 50 pages, and there are ceil(total / 50) of them |
| Processing.ChunkIsBatchFrom | processing.py:38-40 | batch n from an offset is the chunk that starts n chunks after it |
| Processing.ChunksAreBatches | processing.py:38-40 | chunk n of the run exists exactly when batch n of the page list does, and it is that batch |
| Processing.SlotsText | processing.py:39-44 | `chunk_text`: the pages' extracted texts, each followed by a newline, or `None` when a page raises (a definition; its contract is in the `SlotsText` lemmas) |
| Processing.SlotsTextFails | processing.py:42-44 | a chunk has no text exactly when one of its pages raises on load |
| Processing.SlotsTextSnoc | processing.py:44 | a loaded page adds its extracted text and a newline after the text so far |
| Processing.SlotsTextAppend | processing.py:39-44 | the text of two page runs is the text of the first followed by that of the second |
| Processing.SlotsTextSingle | processing.py:44 | one loaded page contributes its extracted text and a newline |
| Processing.BuildChunkText | processing.py:39-44 | the page loop returns the chunk's text, or stops with `None` at the first page that raises |
| Processing.MerchantsOf | processing.py:51 | holds exactly the non-empty merchants of the records |
| Processing.Distinct | processing.py:51 | the same elements, without repeats |
| Processing.UniqueMerchants | processing.py:51 | the unique non-empty merchants of the records (a definition; its contract is in `UniqueMerchantsOfRecords`) |
| Processing.MerchantCategories | processing.py:52-57 | `merchant_cat_map`: `{}` when there are no merchants, otherwise `batched_categorization` of them (a definition) |
| Processing.UniqueMerchantsOfRecords | processing.py:51 | the unique-merchant list holds every non-empty merchant of the records once, and nothing else |
| Processing.CategorizerCalls | processing.py:53-55 | no request exactly when there are no merchants; the requests together are the merchant list |
| Processing.StoredRows | processing.py:60-72 | one row per parsed record, in parse order, each built from its record |
| Processing.StoredRow | processing.py:62-71 | the `Transaction` built from a record (a definition; its contract is in `ChunkRowsFollowRecords`) |
| Processing.ChunkRows | processing.py:47-72 | the rows of one chunk's text: its parse stored under the categories of its unique merchants (a definition; its contract is in `ChunkRowsOfParse`, `ChunkRowsFollowRecords` and `ChunkRowsWhenCallsFail`) |
| Processing.ChunkRowsOfParse | processing.py:47-72 | the chunk's rows are those of its parse under its category map |
| Processing.ChunkWork | processing.py:47-72 | one chunk's work: the requests for its unique merchants and its rows (a definition; `ChunkTransactions` and `ProcessChunk` are proved against it) |
| Processing.WorkOf | processing.py:47-72 | the chunk work with the chat model fixed, the work `ProcessPdfBackground` passes to `Run` (a definition) |
| Processing.Progress | processing.py:77 | `end_page / total_pages * 100` (a definition; its contract is in `ProgressGrows`) |
| Processing.ChunkRowsFollowRecords | processing.py:60-72 | each stored row has the default user, is not recurring, carries its record's description, merchant, amount, type and UPI id, and has the category the map gives its merchant, or "Other" |
| Processing.ChunkRowsWhenCallsFail | processing.py:52-57 | when every model call fails, every row of the chunk is filed under "Other" |
| Processing.ProgressGrows | processing.py:77 | progress grows strictly with the end page, is positive and at most 100, and is 100 at the last page |
| Processing.NextChunkProgress | processing.py:38-40 | a chunk's progress is positive, at most 100 and less than that of the next chunk |
| Processing.ChunkEndsGrow | processing.py:38-40 | the ends of successive chunks grow strictly; a chunk ends at the last page exactly when no chunk follows |
| Processing.CommitW | processing.py:74 | a commit lands the staged rows and logs the job's columns with the new row count, changing nothing else |
| Processing.ChunkDone | processing.py:60-78 | a chunk appends its rows and requests and logs two commits: the rows with the old progress, then the new progress |
| Processing.RunChunks | processing.py:38-93 | the state after the chunk loop from page i and the code after it, ending in the COMPLETED commit or at the first chunk whose page raises, with the FAILED commit (a definition; its contract is in the `RunChunks` lemmas) |
| Processing.Run | processing.py:19-95 | the state after a run on a known job (a definition; its contract is in `RunOutcome` and the `Run` lemmas) |
| Processing.RunChunksFailedBelow | processing.py:77-93 | a chunk loop that starts below 100 and ends FAILED leaves progress below 100 |
| Processing.RunChunksStatus | processing.py:38-93 | the chunk loop ends COMPLETED exactly when every remaining page loads, otherwise FAILED; COMPLETED forces progress 100; the id and page count stay |
| Processing.RunChunksLastCommit | processing.py:81-93 | the loop's last commit shows the job as the loop leaves it |
| Processing.RunChunksKeeps | processing.py:38-78 | the loop only appends to the committed rows, the commit log and the model requests, and it logs at least one commit |
| Processing.RunChunksStatusLog | processing.py:38-93 | while the loop runs, every commit shows PROCESSING; only the last shows the outcome |
| Processing.RunChunksProgress | processing.py:38-78 | progress never falls from one commit of the loop to the next |
| Processing.RunOutcome | processing.py:19-95 | a run ends COMPLETED or FAILED; in the model, COMPLETED exactly when the document opens and every page loads, and then with progress 100 and the page count recorded; a run from below 100 that ends FAILED stays below 100; the job id stays; the rows and commits from before the run are kept, whichever way it ends |
| Processing.RunLastCommit | processing.py:81-93 | the last commit of a run shows the job as the run leaves it |
| Processing.RunCommitStatuses | processing.py:26-93 | a run makes at least two commits; all but the last show PROCESSING, and the last shows COMPLETED or FAILED with the job's final columns |
| Processing.RunProgressNeverFalls | processing.py:74-93 | from progress 0, progress never falls across the commits of a run; a failure does not reset it |
| Processing.RunWithoutPages | processing.py:31-38 | a document with no pages goes straight to COMPLETED with progress 100, storing no row and calling no model |
| Processing.ProcessingJob.constructor | models.py:38-40 | a new job is PENDING with progress 0 and no pages |
| Processing.Database.Add | processing.py:72 | `db.add` stages one row and changes nothing else |
| Processing.Database.Commit | processing.py:74 | `db.commit` lands the staged rows and logs the job's columns |
| Processing.StoreRows | processing.py:60-72 | the rows are staged in order, and nothing is committed |
| Processing.ChunkTransactions | processing.py:47-57 | the records are `Parse` of the chunk text; the map is the categorization of their unique merchants; the model is asked only when there are merchants, with exactly their batches as requests |
| Processing.CommitChunk | processing.py:72-78 | the chunk's rows are committed, and then its progress |
| Processing.ProcessChunk | processing.py:39-78 | a chunk whose page raises changes nothing and reports it; otherwise the state afterwards is `ChunkDone` of the chunk's work |
| Processing.RunChunkLoop | processing.py:38-83 | the chunk loop of the method ends in the state `RunChunks` gives |
| Processing.ProcessPdfBackground | processing.py:19-95 | an unknown job id changes nothing; otherwise the state afterwards is `Run` of the state before |
| Processing.UploadStatement | processing.py:103-109 | a name not ending in ".pdf" is refused with 400 "Only PDF files are allowed" and the database is unchanged; otherwise a fresh PENDING job of the default user, with progress 0 and no pages, is registered under the new id and committed |

## Left out

- Opening the PDF, loading pages, rendering and OCR are calls into PyMuPDF,
  pytesseract and PIL. A page is its native text plus the outcome of OCR, and a
  document is its page slots, or `None` when opening raises.
- `get_text` raising is folded into `PageSlot.LoadError`, since both abort the run
  the same way.
- The Groq chat call is an oracle: a fixed function from the batch to a reply text,
  or `None` when the call raises. The prompt text is not modelled.
- Float rounding: amounts are exact decimals (`real`), and so is progress. So
  `end_page / total_pages * 100` is exact and its monotonicity is exact too.
- `float` is modelled on the strings it can receive here, digits and dots, and is not
  modelled on exponents, signs, "inf" or Unicode digits.
- `list(set(...))` leaves the order of the unique merchants unspecified. The model
  keeps the first occurrences in record order. This affects batch composition and,
  when replies share keys, which value wins.
- `txn_date` is the raw date line in the parsed record. The stored row has no date,
  since the code stores `datetime.utcnow()`.
- `print` calls are left out.
- SQLAlchemy failures are left out: a failing commit or query, and a missing job on
  the re-query in the `except` block. Each query returns the job registered under
  the id.
- The `except` around the categorizer (processing.py:54-57) cannot be reached in the
  model. `batched_categorization` with size 50 does not raise there. The branch is
  still modelled, in `ChunkTransactions`.
- A job id is a fresh `newId` given to `UploadStatement` in place of `uuid`.
- `total_pages` is a `nat`, not a Float column.
- The part of `upload_statement` after the job commit is left out: the file save and
  the background task. So are the status endpoint `get_job_status`, analytics.py,
  main.py, config.py and the FastAPI routing.
- Python's `\s`, `\d`, `strip` and `upper` are modelled on ASCII only.
- `doc.close()` (processing.py:85) is taken never to raise. In the code, a raise there
  after the COMPLETED commit would reach the `except` block, which commits FAILED
  over it (processing.py:89-93).
- The import of `batched_categorization` inside the chunk loop (processing.py:50) is
  taken to succeed. An `ImportError` there would end the run FAILED through the
  `except` block.
- RunOutcome: its "COMPLETED exactly when the document opens and every page loads"
  holds under the two assumptions above. In the code, a failing `doc.close()` or
  import also ends the run FAILED.
- RunProgressNeverFalls: it requires the job to start from progress 0, as a new job
  does. A rerun of a job left at some progress may commit a lower progress.
