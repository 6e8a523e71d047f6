/**
 * The categorization adapter: merchant batches are sent to a chat model, whose
 * `merchant|category` reply lines become a map; a failed call maps the whole batch
 * to "Other", and the maps of consecutive batches are merged left to right.
 */
module LlmCategorizer {
  import opened Wrappers
  import opened Text

  /** The category given to every merchant of a batch whose model call fails. */
  const DEFAULT_CATEGORY: string := "Other"
  /** The default `batch_size` of `batched_categorization`. */
  const DEFAULT_BATCH_SIZE: int := 50

  // ---------------------------------------------------------------------------
  // Reading the model's reply
  // ---------------------------------------------------------------------------

  /**
   * A reply line read as `(merchant, category)`: a line with exactly one '|', cut
   * there, both halves stripped. `PairOfIsSplit` shows this is what `line.split('|')`
   * with the two-part test computes.
   */
  function PairOf(line: string): (r: Option<(string, string)>)
    ensures r.Some? ==> '|' in line
  {
    if multiset(line)['|'] == 1 then
      var k := IndexOf(line, '|');
      Some((Strip(line[..k]), Strip(line[k + 1..])))
    else
      None
  }

  /**
   * `parts = line.split('|')` has exactly two parts precisely for a line with one
   * '|', and then the stripped parts are the pair.
   */
  lemma PairOfIsSplit(line: string)
    ensures |Split(line, '|')| == 2 <==> PairOf(line).Some?
    ensures |Split(line, '|')| == 2 ==>
      PairOf(line).value == (Strip(Split(line, '|')[0]), Strip(Split(line, '|')[1]))
  {
    SplitCount(line, '|');
    if multiset(line)['|'] == 1 {
      SplitAtOnly(line, '|');
    }
  }

  /** The lines of a reply: `response_text.strip().split('\n')`. */
  function ReplyLines(text: string): seq<string> {
    Split(Strip(text), '\n')
  }

  /** Line i of `lines` is a pair whose key is `key`. */
  ghost predicate KeyAt(lines: seq<string>, i: int, key: string) {
    0 <= i < |lines| && PairOf(lines[i]).Some? && PairOf(lines[i]).value.0 == key
  }

  /** The map `result_map` holds after reading `lines` in order. */
  function ResponseMap(lines: seq<string>): map<string, string>
    decreases |lines|
  {
    if lines == [] then map[]
    else
      var m := ResponseMap(lines[..|lines| - 1]);
      var pair := PairOf(lines[|lines| - 1]);
      if pair.Some? then m[pair.value.0 := pair.value.1] else m
  }

  /** A key is in the map exactly when some line is a pair with that key. */
  lemma {:induction false} ResponseMapKeys(lines: seq<string>, key: string)
    ensures key in ResponseMap(lines) <==> exists i :: KeyAt(lines, i, key)
    decreases |lines|
  {
    if lines != [] {
      var init, last := lines[..|lines| - 1], |lines| - 1;
      ResponseMapKeys(init, key);
      forall i | 0 <= i < |init| ensures KeyAt(init, i, key) == KeyAt(lines, i, key) {
        assert init[i] == lines[i];
      }
      if key in ResponseMap(lines) && !KeyAt(lines, last, key) {
        var i :| KeyAt(init, i, key);
        assert KeyAt(lines, i, key);
      }
      forall i | KeyAt(lines, i, key) ensures key in ResponseMap(lines) {
        if i < last {
          assert KeyAt(init, i, key);
        }
      }
    }
  }

  /** The value of a key is the category of the last line carrying that key. */
  lemma {:induction false} ResponseMapLastWins(lines: seq<string>, i: nat, key: string)
    requires KeyAt(lines, i, key)
    requires forall j :: i < j < |lines| ==> !KeyAt(lines, j, key)
    ensures key in ResponseMap(lines) && ResponseMap(lines)[key] == PairOf(lines[i]).value.1
    decreases |lines|
  {
    var init := lines[..|lines| - 1];
    if i < |lines| - 1 {
      assert KeyAt(init, i, key);
      forall j | i < j < |init| ensures !KeyAt(init, j, key) {
        assert !KeyAt(lines, j, key);
      }
      ResponseMapLastWins(init, i, key);
      assert !KeyAt(lines, |lines| - 1, key);
    }
  }

  /**
   * The loop of `categorize_merchants` over the reply lines, filling `result_map`.
   */
  method ReadReply(text: string) returns (resultMap: map<string, string>)
    ensures resultMap == ResponseMap(ReplyLines(text))
  {
    var lines := ReplyLines(text);
    resultMap := map[];
    var i := 0;
    while i < |lines|
      invariant 0 <= i <= |lines|
      invariant resultMap == ResponseMap(lines[..i])
    {
      var parts := Split(lines[i], '|');
      PairOfIsSplit(lines[i]);
      if |parts| == 2 {
        resultMap := resultMap[Strip(parts[0]) := Strip(parts[1])];
      }
      assert lines[..i + 1][..i] == lines[..i];
      i := i + 1;
    }
    assert lines[..i] == lines;
  }

  // ---------------------------------------------------------------------------
  // One batch
  // ---------------------------------------------------------------------------

  /** `{m: "Other" for m in merchants}`. */
  function DefaultCategories(merchants: seq<string>): (m: map<string, string>)
    ensures forall k :: k in m <==> k in merchants
    ensures forall k | k in m :: m[k] == DEFAULT_CATEGORY
  {
    map k | k in merchants :: DEFAULT_CATEGORY
  }

  /**
   * What `categorize_merchants` returns for a batch, given the model's reply
   * (`None` when the call, or reading its content, raises).
   */
  function CategorizeResult(merchants: seq<string>, reply: Option<string>): map<string, string> {
    if merchants == [] then map[]
    else if reply.None? then DefaultCategories(merchants)
    else ResponseMap(ReplyLines(reply.value))
  }

  /** A failed call maps every merchant of the batch, and only those, to "Other". */
  lemma FailedCallDefaults(merchants: seq<string>)
    ensures forall k :: k in CategorizeResult(merchants, None) <==> k in merchants
    ensures forall k | k in CategorizeResult(merchants, None) :: CategorizeResult(merchants, None)[k] == DEFAULT_CATEGORY
  {
  }

  /**
   * The chat model, seen from the adapter: it keeps the log of the batches it was
   * asked about, and answers each with a reply text or a failure.
   */
  class ChatClient {
    /** The merchant batches of the requests made so far, oldest first. */
    var requests: seq<seq<string>>
    /** The model's answer to a request about a batch; `None` when the call raises. */
    const reply: seq<string> -> Option<string>

    constructor (reply: seq<string> -> Option<string>)
      ensures this.reply == reply && requests == []
    {
      this.reply := reply;
      requests := [];
    }

    /** One chat completion request about `merchants`. */
    method Complete(merchants: seq<string>) returns (r: Option<string>)
      modifies this
      ensures requests == old(requests) + [merchants]
      ensures r == reply(merchants)
    {
      requests := requests + [merchants];
      r := reply(merchants);
    }
  }

  /**
   * `categorize_merchants`: no request for an empty list, otherwise exactly one, and
   * the batch's map read from the reply or defaulted on failure.
   */
  method CategorizeMerchants(merchants: seq<string>, client: ChatClient) returns (m: map<string, string>)
    modifies client
    ensures merchants == [] ==> client.requests == old(client.requests)
    ensures merchants != [] ==> client.requests == old(client.requests) + [merchants]
    ensures m == CategorizeResult(merchants, client.reply(merchants))
  {
    if merchants == [] {
      return map[];
    }
    var reply := client.Complete(merchants);
    match reply
    case None =>
      m := DefaultCategories(merchants);
    case Some(text) =>
      m := ReadReply(text);
  }

  // ---------------------------------------------------------------------------
  // Batches
  // ---------------------------------------------------------------------------

  function Min(a: int, b: int): int {
    if a <= b then a else b
  }

  /** The slices `xs[i:i+size]` for i = start, start+size, ... below `|xs|`. */
  function BatchesFrom<T>(xs: seq<T>, start: nat, size: nat): seq<seq<T>>
    requires size > 0
    decreases |xs| - start
  {
    if start >= |xs| then []
    else [xs[start..Min(start + size, |xs|)]] + BatchesFrom(xs, start + size, size)
  }

  /** The batches of `batched_categorization`. */
  function Batches<T>(xs: seq<T>, size: nat): seq<seq<T>>
    requires size > 0
  {
    BatchesFrom(xs, 0, size)
  }

  /** The concatenation of a sequence of sequences. */
  function Flatten<T>(xss: seq<seq<T>>): seq<T>
    decreases |xss|
  {
    if xss == [] then [] else xss[0] + Flatten(xss[1..])
  }

  /** One step of `BatchesFrom`. */
  lemma BatchesFromStep<T>(xs: seq<T>, start: nat, size: nat)
    requires size > 0 && start < |xs|
    ensures BatchesFrom(xs, start, size)
         == [xs[start..Min(start + size, |xs|)]] + BatchesFrom(xs, start + size, size)
  {
  }

  /** The batches already taken, followed by those from `start`, after one more batch is taken. */
  lemma TakeBatch<T>(xs: seq<T>, start: nat, size: nat, done: seq<seq<T>>)
    requires size > 0 && start < |xs|
    ensures done + BatchesFrom(xs, start, size)
         == (done + [xs[start..Min(start + size, |xs|)]]) + BatchesFrom(xs, start + size, size)
  {
    BatchesFromStep(xs, start, size);
  }

  /** Together the batches from `start` on are `xs[start..]`. */
  lemma {:induction false} BatchesFromFlatten<T>(xs: seq<T>, start: nat, size: nat)
    requires size > 0 && start <= |xs|
    ensures Flatten(BatchesFrom(xs, start, size)) == xs[start..]
    decreases |xs| - start
  {
    if start < |xs| {
      var end := Min(start + size, |xs|);
      var bs := BatchesFrom(xs, start, size);
      BatchesFromStep(xs, start, size);
      assert bs[1..] == BatchesFrom(xs, start + size, size);
      if end == |xs| {
        assert Flatten(bs[1..]) == [];
        assert xs[start..end] == xs[start..];
      } else {
        BatchesFromFlatten(xs, end, size);
        assert xs[start..] == xs[start..end] + xs[end..];
      }
    }
  }

  /**
   * There are ceil((|xs| - start) / size) batches from `start` on: the fewest batches
   * of `size` that hold all the elements.
   */
  lemma {:induction false} BatchesFromCount<T>(xs: seq<T>, start: nat, size: nat)
    requires size > 0 && start <= |xs|
    ensures |xs| - start <= |BatchesFrom(xs, start, size)| * size < |xs| - start + size
    decreases |xs| - start
  {
    if start < |xs| {
      BatchesFromStep(xs, start, size);
      var rest := BatchesFrom(xs, start + size, size);
      if start + size >= |xs| {
        assert rest == [];
      } else {
        BatchesFromCount(xs, start + size, size);
        assert (|rest| + 1) * size == |rest| * size + size;
      }
    }
  }

  /** Every batch has `size` elements except the last, which has between 1 and `size`. */
  lemma {:induction false} BatchesFromSizes<T>(xs: seq<T>, start: nat, size: nat)
    requires size > 0
    ensures forall k :: 0 <= k < |BatchesFrom(xs, start, size)| - 1 ==> |BatchesFrom(xs, start, size)[k]| == size
    ensures forall k :: 0 <= k < |BatchesFrom(xs, start, size)| ==> 0 < |BatchesFrom(xs, start, size)[k]| <= size
    decreases |xs| - start
  {
    if start < |xs| {
      var bs, rest := BatchesFrom(xs, start, size), BatchesFrom(xs, start + size, size);
      BatchesFromStep(xs, start, size);
      BatchesFromSizes(xs, start + size, size);
      if rest != [] {
        assert start + size < |xs|;
      }
      forall k | 0 < k < |bs| ensures bs[k] == rest[k - 1] {
      }
    }
  }

  /** Batches are consecutive slices whose concatenation is the input. */
  lemma BatchesShape<T>(xs: seq<T>, size: nat)
    requires size > 0
    ensures Flatten(Batches(xs, size)) == xs
    ensures |xs| <= |Batches(xs, size)| * size < |xs| + size
    ensures forall k :: 0 <= k < |Batches(xs, size)| - 1 ==> |Batches(xs, size)[k]| == size
    ensures forall k :: 0 <= k < |Batches(xs, size)| ==> 0 < |Batches(xs, size)[k]| <= size
  {
    BatchesFromFlatten(xs, 0, size);
    BatchesFromCount(xs, 0, size);
    BatchesFromSizes(xs, 0, size);
  }

  /** 120 merchants in batches of 50 make three calls, of 50, 50 and 20 merchants. */
  lemma HundredTwentyMerchants<T>(xs: seq<T>)
    requires |xs| == 120
    ensures |Batches(xs, 50)| == 3
    ensures Batches(xs, 50) == [xs[..50], xs[50..100], xs[100..]]
  {
    assert BatchesFrom(xs, 150, 50) == [];
    assert BatchesFrom(xs, 100, 50) == [xs[100..120]];
    assert BatchesFrom(xs, 50, 50) == [xs[50..100]] + [xs[100..120]];
    assert xs[0..50] == xs[..50] && xs[100..120] == xs[100..];
  }

  // ---------------------------------------------------------------------------
  // Merging
  // ---------------------------------------------------------------------------

  /** `final_map.update(m)` for each map in turn, starting from `{}`. */
  function MergeAll(ms: seq<map<string, string>>): map<string, string>
    decreases |ms|
  {
    if ms == [] then map[] else MergeAll(ms[..|ms| - 1]) + ms[|ms| - 1]
  }

  /** The key set of the merge is the union of the key sets. */
  lemma {:induction false} MergeAllKeys(ms: seq<map<string, string>>, key: string)
    ensures key in MergeAll(ms) <==> exists i :: 0 <= i < |ms| && key in ms[i]
    decreases |ms|
  {
    if ms != [] {
      var init := ms[..|ms| - 1];
      MergeAllKeys(init, key);
      if exists i :: 0 <= i < |init| && key in init[i] {
        var i :| 0 <= i < |init| && key in init[i];
        assert key in ms[i];
      }
      if exists i :: 0 <= i < |ms| && key in ms[i] {
        var i :| 0 <= i < |ms| && key in ms[i];
        if i < |init| {
          assert key in init[i];
        }
      }
    }
  }

  /** On a shared key the later map wins: the value comes from the last map holding it. */
  lemma {:induction false} MergeAllLastWins(ms: seq<map<string, string>>, i: nat, key: string)
    requires i < |ms| && key in ms[i]
    requires forall j :: i < j < |ms| ==> key !in ms[j]
    ensures key in MergeAll(ms) && MergeAll(ms)[key] == ms[i][key]
    decreases |ms|
  {
    if i < |ms| - 1 {
      var init := ms[..|ms| - 1];
      assert key !in ms[|ms| - 1];
      assert init[i] == ms[i];
      MergeAllLastWins(init, i, key);
    }
  }

  /** The map of each batch, in batch order. */
  function BatchMaps(batches: seq<seq<string>>, reply: seq<string> -> Option<string>): (ms: seq<map<string, string>>)
    ensures |ms| == |batches|
    decreases |batches|
  {
    if batches == [] then []
    else
      var last := batches[|batches| - 1];
      BatchMaps(batches[..|batches| - 1], reply) + [CategorizeResult(last, reply(last))]
  }

  /** Map k is the result for batch k. */
  lemma {:induction false} BatchMapsAt(batches: seq<seq<string>>, reply: seq<string> -> Option<string>, k: nat)
    requires k < |batches|
    ensures BatchMaps(batches, reply)[k] == CategorizeResult(batches[k], reply(batches[k]))
    decreases |batches|
  {
    if k < |batches| - 1 {
      BatchMapsAt(batches[..|batches| - 1], reply, k);
    }
  }

  /** Merging one more batch map is one more `update`. */
  lemma MergeBatchStep(done: seq<seq<string>>, batch: seq<string>, reply: seq<string> -> Option<string>)
    ensures MergeAll(BatchMaps(done + [batch], reply))
         == MergeAll(BatchMaps(done, reply)) + CategorizeResult(batch, reply(batch))
  {
    assert (done + [batch])[..|done|] == done;
  }

  /** What `batched_categorization(merchants, size)` returns for a positive size. */
  function BatchedResult(merchants: seq<string>, size: nat, reply: seq<string> -> Option<string>): map<string, string>
    requires size > 0
  {
    MergeAll(BatchMaps(Batches(merchants, size), reply))
  }

  /**
   * When every call fails, every merchant, and nothing else, is mapped to "Other".
   */
  lemma AllCallsFailed(merchants: seq<string>, size: nat, reply: seq<string> -> Option<string>)
    requires size > 0
    requires forall b :: reply(b).None?
    ensures forall k :: k in BatchedResult(merchants, size, reply) <==> k in merchants
    ensures forall k | k in BatchedResult(merchants, size, reply) :: BatchedResult(merchants, size, reply)[k] == DEFAULT_CATEGORY
  {
    var bs := Batches(merchants, size);
    var ms := BatchMaps(bs, reply);
    BatchesShape(merchants, size);
    forall i | 0 <= i < |ms| ensures ms[i] == DefaultCategories(bs[i]) {
      BatchMapsAt(bs, reply, i);
    }
    forall k ensures k in MergeAll(ms) <==> k in merchants {
      MergeAllKeys(ms, k);
      FlattenMember(bs, k);
    }
    forall k | k in MergeAll(ms) ensures MergeAll(ms)[k] == DEFAULT_CATEGORY {
      MergeAllKeys(ms, k);
      var i :| 0 <= i < |ms| && k in ms[i];
      var last := LastHolder(ms, i, k);
      MergeAllLastWins(ms, last, k);
    }
  }

  /** An element of a concatenation lies in one of its parts. */
  lemma {:induction false} FlattenMember(xss: seq<seq<string>>, x: string)
    ensures x in Flatten(xss) <==> exists i :: 0 <= i < |xss| && x in xss[i]
    decreases |xss|
  {
    if xss != [] {
      FlattenMember(xss[1..], x);
      if exists i :: 0 <= i < |xss| && x in xss[i] {
        var i :| 0 <= i < |xss| && x in xss[i];
        if i > 0 {
          assert x in xss[1..][i - 1];
        }
      }
      if exists i :: 0 <= i < |xss[1..]| && x in xss[1..][i] {
        var i :| 0 <= i < |xss[1..]| && x in xss[1..][i];
        assert x in xss[i + 1];
      }
    }
  }

  /** The last map at or after i that holds `key`. */
  lemma {:induction false} LastHolder(ms: seq<map<string, string>>, i: nat, key: string) returns (last: nat)
    requires i < |ms| && key in ms[i]
    ensures i <= last < |ms| && key in ms[last]
    ensures forall j :: last < j < |ms| ==> key !in ms[j]
    decreases |ms| - i
  {
    if exists j :: i < j < |ms| && key in ms[j] {
      var j :| i < j < |ms| && key in ms[j];
      last := LastHolder(ms, j, key);
    } else {
      last := i;
    }
  }

  /**
   * `batched_categorization`: `range` raises for a zero step, yields nothing for a
   * negative one, and otherwise one `categorize_merchants` call per batch, merged with
   * `update`.
   */
  method BatchedCategorization(merchants: seq<string>, batchSize: int, client: ChatClient)
    returns (r: Result<map<string, string>, string>)
    modifies client
    ensures batchSize == 0 ==> r.Failure? && client.requests == old(client.requests)
    ensures batchSize < 0 ==> r == Success(map[]) && client.requests == old(client.requests)
    ensures batchSize > 0 ==> client.requests == old(client.requests) + Batches(merchants, batchSize)
    ensures batchSize > 0 ==> r == Success(BatchedResult(merchants, batchSize, client.reply))
  {
    if batchSize == 0 {
      return Failure("ValueError: range() arg 3 must not be zero");
    }
    if batchSize < 0 {
      return Success(map[]);
    }
    var finalMap := CategorizeInBatches(merchants, batchSize, client);
    return Success(finalMap);
  }

  /** The loop of `batched_categorization` for a positive batch size. */
  method CategorizeInBatches(merchants: seq<string>, size: nat, client: ChatClient)
    returns (finalMap: map<string, string>)
    requires size > 0
    modifies client
    ensures client.requests == old(client.requests) + Batches(merchants, size)
    ensures finalMap == BatchedResult(merchants, size, client.reply)
  {
    ghost var reply := client.reply;
    finalMap := map[];
    ghost var done: seq<seq<string>> := [];
    var i := 0;
    while i < |merchants|
      invariant done + BatchesFrom(merchants, i, size) == Batches(merchants, size)
      invariant client.requests == old(client.requests) + done
      invariant finalMap == MergeAll(BatchMaps(done, reply))
      decreases |merchants| - i
    {
      var batch := merchants[i..Min(i + size, |merchants|)];
      TakeBatch(merchants, i, size, done);
      var batchResults := CategorizeMerchants(batch, client);
      MergeBatchStep(done, batch, reply);
      finalMap := finalMap + batchResults;
      done := done + [batch];
      i := i + size;
    }
    assert BatchesFrom(merchants, i, size) == [];
    assert done == Batches(merchants, size);
  }
}
