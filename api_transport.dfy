/**
 * The delivery core shared by every transport: a bounded queue of records,
 * `flush`, and the recursive `send` that cuts a list of records into
 * contiguous chunks until each serialised chunk fits in MAX_POST_LENGTH
 * bytes. `sendChunk`, which each concrete transport implements, is modelled
 * as appending the payload to the log `sent`.
 */
module ApiTransport {
  import opened Php
  import Config

  /** The queue accepts a record while it holds at most this many. */
  const MAX_QUEUE_LENGTH: nat := 100

  /** One queued record, given by its own JSON text. */
  type Item = string

  // ---------------------------------------------------------------------------
  // Serialisation

  function Join(items: seq<Item>): string
    decreases |items|
  {
    if |items| == 0 then ""
    else if |items| == 1 then items[0]
    else items[0] + "," + Join(items[1..])
  }

  /** `json_encode` of a list of records: a JSON array of their texts. */
  function Json(items: seq<Item>): (json: string)
    ensures |json| >= 2 && json[0] == '[' && json[|json| - 1] == ']'
  {
    "[" + Join(items) + "]"
  }

  /** The JSON text of a list of two records is three characters longer than the two together. */
  lemma JsonOfTwo(a: Item, b: Item)
    ensures |Json([a, b])| == |a| + |b| + 3
  {
    assert [a, b][1..] == [b];
    assert Join([a, b]) == a + "," + b;
  }

  // ---------------------------------------------------------------------------
  // The queue

  /** `addEntry` on the queue value: append while the queue holds at most MAX_QUEUE_LENGTH records. */
  function Enqueue(queue: seq<Item>, item: Item): (q: seq<Item>)
    ensures queue <= q
    ensures |queue| <= MAX_QUEUE_LENGTH ==> |q| == |queue| + 1 && q[|queue|] == item
    ensures |queue| > MAX_QUEUE_LENGTH ==> q == queue
  {
    if |queue| <= MAX_QUEUE_LENGTH then queue + [item] else queue
  }

  /** A run of `addEntry` calls, oldest first. */
  function EnqueueAll(queue: seq<Item>, items: seq<Item>): (q: seq<Item>)
    ensures queue <= q
    ensures |queue| <= MAX_QUEUE_LENGTH + 1 ==> |q| <= MAX_QUEUE_LENGTH + 1
    decreases |items|
  {
    if items == [] then queue else EnqueueAll(Enqueue(queue, items[0]), items[1..])
  }

  /**
   * The queue keeps the oldest records: whatever is added to a queue of at
   * most MAX_QUEUE_LENGTH + 1 records, it ends up holding the first
   * MAX_QUEUE_LENGTH + 1 records of old contents followed by the additions.
   */
  lemma {:induction false} EnqueueAllKeepsOldest(queue: seq<Item>, items: seq<Item>)
    requires |queue| <= MAX_QUEUE_LENGTH + 1
    ensures var all := queue + items;
      EnqueueAll(queue, items) == all[..if |all| <= MAX_QUEUE_LENGTH + 1 then |all| else MAX_QUEUE_LENGTH + 1]
    decreases |items|
  {
    var all := queue + items;
    if items == [] {
      assert all == queue;
    } else if |queue| <= MAX_QUEUE_LENGTH {
      var q := queue + [items[0]];
      EnqueueAllKeepsOldest(q, items[1..]);
      assert q + items[1..] == all;
    } else {
      EnqueueAllKeepsOldest(queue, items[1..]);
      assert (queue + items[1..])[..MAX_QUEUE_LENGTH + 1] == queue;
      assert all[..MAX_QUEUE_LENGTH + 1] == queue;
    }
  }

  // ---------------------------------------------------------------------------
  // Splitting

  /** `ceil(a / b)` for a positive divisor. */
  function CeilDiv(a: nat, b: nat): (r: nat)
    requires b > 0
    ensures r * b >= a && (r - 1) * b < a
  {
    (a + b - 1) / b
  }

  /**
   * `floor($count / ceil($jsonLength / MAX_POST_LENGTH))` for a payload over
   * the ceiling: at most half the records, since the payload needs at least
   * two posts. It is 0 exactly when there are fewer records than posts.
   */
  function ChunkSize(count: nat, jsonLength: nat): (k: nat)
    requires jsonLength > Config.MAX_POST_LENGTH
    ensures k <= count / 2
    ensures k == 0 <==> count < CeilDiv(jsonLength, Config.MAX_POST_LENGTH)
  {
    var posts := CeilDiv(jsonLength, Config.MAX_POST_LENGTH);
    QuotientBounds(count, posts);
    count / posts
  }

  /** Dividing by at least two: at most half, and zero exactly below the divisor. */
  lemma QuotientBounds(count: nat, posts: nat)
    requires posts >= 2
    ensures count / posts <= count / 2
    ensures count / posts == 0 <==> count < posts
  {
    var k := count / posts;
    var m := count % posts;
    assert count == posts * k + m && 0 <= m < posts;
    assert posts * k == 2 * k + (posts - 2) * k;
    assert (posts - 2) * k >= 0;
    if k >= 1 {
      assert posts * k == posts + posts * (k - 1);
      assert posts * (k - 1) >= 0;
    }
  }

  /** Concatenation of a list of chunks. */
  function Flatten(chunks: seq<seq<Item>>): seq<Item> {
    if chunks == [] then [] else chunks[0] + Flatten(chunks[1..])
  }

  lemma {:induction false} FlattenAppend(a: seq<seq<Item>>, b: seq<seq<Item>>)
    ensures Flatten(a + b) == Flatten(a) + Flatten(b)
  {
    if a == [] {
      assert a + b == b;
    } else {
      assert (a + b)[0] == a[0] && (a + b)[1..] == a[1..] + b;
      FlattenAppend(a[1..], b);
    }
  }

  /**
   * `array_chunk($items, $size)`: contiguous slices of `size` records, the
   * last one possibly shorter, that together give back the input.
   */
  function Chunks(items: seq<Item>, size: nat): (chunks: seq<seq<Item>>)
    requires size > 0
    ensures Flatten(chunks) == items
    ensures forall i :: 0 <= i < |chunks| ==> 0 < |chunks[i]| <= size
    ensures forall i :: 0 <= i < |chunks| - 1 ==> |chunks[i]| == size
    decreases |items|
  {
    if items == [] then []
    else if |items| <= size then [items]
    else [items[..size]] + Chunks(items[size..], size)
  }

  // ---------------------------------------------------------------------------
  // What one `send` call emits

  /**
   * The record lists whose JSON `send` hands to `sendChunk`, in order, and
   * whether it ended with the exception `array_chunk` raises for size 0.
   */
  datatype Trace = Trace(batches: seq<seq<Item>>, failed: bool)

  const ChunkSizeError := ValueError("array_chunk(): Argument #2 ($length) must be greater than 0")

  /**
   * `send($items)`: post the whole list if its JSON fits; drop a lone record
   * that does not; otherwise chunk the list and send every chunk in turn.
   */
  function SendTrace(items: seq<Item>): (t: Trace)
    ensures forall i :: 0 <= i < |t.batches| ==> |t.batches[i]| <= |items|
    ensures t.failed ==> |items| >= 2
    decreases |items|, 1, 0
  {
    var jsonLength := |Json(items)|;
    if jsonLength > Config.MAX_POST_LENGTH then
      if |items| == 1 then Trace([], false)
      else
        var size := ChunkSize(|items|, jsonLength);
        if size == 0 then Trace([], true)
        else SendEach(Chunks(items, size), |items|)
    else Trace([items], false)
  }

  /** The `foreach` over the chunks: stops at the first chunk whose `send` raised. */
  function SendEach(chunks: seq<seq<Item>>, bound: nat): (t: Trace)
    requires forall i :: 0 <= i < |chunks| ==> |chunks[i]| < bound
    ensures forall i :: 0 <= i < |t.batches| ==> |t.batches[i]| < bound
    ensures t.failed ==> chunks != []
    decreases bound, 0, |chunks|
  {
    if chunks == [] then Trace([], false)
    else
      var first := SendTrace(chunks[0]);
      if first.failed then first
      else
        var rest := SendEach(chunks[1..], bound);
        Trace(first.batches + rest.batches, rest.failed)
  }

  /** One turn of the `foreach`: the trace of the chunks from `i` on. */
  lemma SendEachFrom(chunks: seq<seq<Item>>, bound: nat, i: nat)
    requires forall j :: 0 <= j < |chunks| ==> |chunks[j]| < bound
    requires i < |chunks|
    ensures SendEach(chunks[i..], bound) ==
      var first := SendTrace(chunks[i]);
      if first.failed then first
      else var rest := SendEach(chunks[i + 1..], bound); Trace(first.batches + rest.batches, rest.failed)
  {
    assert chunks[i..][0] == chunks[i];
    assert chunks[i..][1..] == chunks[i + 1..];
  }

  /** The trace `t` after the batches `posted` have already been posted. */
  function Prefixed(posted: seq<seq<Item>>, t: Trace): Trace {
    Trace(posted + t.batches, t.failed)
  }

  /**
   * One turn of the `foreach` after `posted` has been posted: either the
   * chunk raises and the trace ends with its batches, or its batches join
   * what has been posted and the remaining chunks follow.
   */
  lemma PrefixedStep(chunks: seq<seq<Item>>, bound: nat, i: nat, posted: seq<seq<Item>>)
    requires forall j :: 0 <= j < |chunks| ==> |chunks[j]| < bound
    requires i < |chunks|
    ensures var first := SendTrace(chunks[i]);
      Prefixed(posted, SendEach(chunks[i..], bound)) ==
        if first.failed then Trace(posted + first.batches, true)
        else Prefixed(posted + first.batches, SendEach(chunks[i + 1..], bound))
  {
    SendEachFrom(chunks, bound, i);
    var first := SendTrace(chunks[i]);
    if !first.failed {
      var rest := SendEach(chunks[i + 1..], bound);
      assert posted + (first.batches + rest.batches) == (posted + first.batches) + rest.batches;
    }
  }

  /** The payloads given to `sendChunk`: the JSON text of each batch. */
  function Payloads(batches: seq<seq<Item>>): seq<string> {
    if batches == [] then [] else [Json(batches[0])] + Payloads(batches[1..])
  }

  lemma {:induction false} PayloadsAt(batches: seq<seq<Item>>)
    ensures |Payloads(batches)| == |batches|
    ensures forall i :: 0 <= i < |batches| ==> Payloads(batches)[i] == Json(batches[i])
  {
    if batches != [] {
      PayloadsAt(batches[1..]);
    }
  }

  lemma {:induction false} PayloadsAppend(a: seq<seq<Item>>, b: seq<seq<Item>>)
    ensures Payloads(a + b) == Payloads(a) + Payloads(b)
  {
    if a == [] {
      assert a + b == b;
    } else {
      assert (a + b)[0] == a[0] && (a + b)[1..] == a[1..] + b;
      PayloadsAppend(a[1..], b);
    }
  }

  // ---------------------------------------------------------------------------
  // Properties of `send`

  /** A list whose JSON fits is posted whole, as one payload. */
  lemma SendFits(items: seq<Item>)
    requires |Json(items)| <= Config.MAX_POST_LENGTH
    ensures Payloads(SendTrace(items).batches) == [Json(items)]
    ensures !SendTrace(items).failed
  {
  }

  /** A single record whose JSON exceeds the ceiling is dropped without error. */
  lemma LoneOversizedDropped(item: Item)
    requires |Json([item])| > Config.MAX_POST_LENGTH
    ensures SendTrace([item]) == Trace([], false)
  {
  }

  /** Every batch that reaches `sendChunk` serialises to at most MAX_POST_LENGTH bytes. */
  predicate AllFit(batches: seq<seq<Item>>) {
    forall i :: 0 <= i < |batches| ==> |Json(batches[i])| <= Config.MAX_POST_LENGTH
  }

  lemma {:induction false} SendTraceFits(items: seq<Item>)
    ensures AllFit(SendTrace(items).batches)
    decreases |items|, 1, 0
  {
    var jsonLength := |Json(items)|;
    if jsonLength > Config.MAX_POST_LENGTH && |items| != 1 {
      var size := ChunkSize(|items|, jsonLength);
      if size != 0 {
        SendEachFits(Chunks(items, size), |items|);
      }
    }
  }

  lemma {:induction false} SendEachFits(chunks: seq<seq<Item>>, bound: nat)
    requires forall i :: 0 <= i < |chunks| ==> |chunks[i]| < bound
    ensures AllFit(SendEach(chunks, bound).batches)
    decreases bound, 0, |chunks|
  {
    if chunks != [] {
      SendTraceFits(chunks[0]);
      if !SendTrace(chunks[0]).failed {
        SendEachFits(chunks[1..], bound);
      }
    }
  }

  /** No payload `send` emits, at any depth of the recursion, exceeds MAX_POST_LENGTH. */
  lemma PayloadsWithinLimit(items: seq<Item>)
    ensures forall p :: p in Payloads(SendTrace(items).batches) ==> |p| <= Config.MAX_POST_LENGTH
  {
    SendTraceFits(items);
    PayloadsAt(SendTrace(items).batches);
  }

  /** `a` is obtained from `b` by deleting elements. */
  predicate IsSubseq(a: seq<Item>, b: seq<Item>)
    decreases |b|
  {
    if a == [] then true
    else if b == [] then false
    else (a[0] == b[0] && IsSubseq(a[1..], b[1..])) || IsSubseq(a, b[1..])
  }

  lemma {:induction false} SubseqOfLonger(a: seq<Item>, b: seq<Item>, c: seq<Item>)
    requires IsSubseq(a, c)
    ensures IsSubseq(a, b + c)
    decreases |b|
  {
    if b == [] {
      assert b + c == c;
    } else if a != [] {
      SubseqOfLonger(a, b[1..], c);
      assert (b + c)[1..] == b[1..] + c;
    }
  }

  lemma {:induction false} SubseqAppend(a1: seq<Item>, b1: seq<Item>, a2: seq<Item>, b2: seq<Item>)
    requires IsSubseq(a1, b1) && IsSubseq(a2, b2)
    ensures IsSubseq(a1 + a2, b1 + b2)
    decreases |b1|
  {
    if a1 == [] {
      SubseqOfLonger(a2, b1, b2);
      assert a1 + a2 == a2;
    } else {
      assert (a1 + a2)[0] == a1[0] && (a1 + a2)[1..] == a1[1..] + a2;
      assert (b1 + b2)[0] == b1[0] && (b1 + b2)[1..] == b1[1..] + b2;
      if a1[0] == b1[0] && IsSubseq(a1[1..], b1[1..]) {
        SubseqAppend(a1[1..], b1[1..], a2, b2);
      } else {
        SubseqAppend(a1, b1[1..], a2, b2);
      }
    }
  }

  lemma {:induction false} SubseqRefl(a: seq<Item>)
    ensures IsSubseq(a, a)
    decreases |a|
  {
    if a != [] {
      SubseqRefl(a[1..]);
    }
  }

  /** The records `send` posts are records of the input, in input order, none repeated. */
  lemma {:induction false} SendTraceInOrder(items: seq<Item>)
    ensures IsSubseq(Flatten(SendTrace(items).batches), items)
    decreases |items|, 1, 0
  {
    var jsonLength := |Json(items)|;
    if jsonLength > Config.MAX_POST_LENGTH {
      var size := ChunkSize(|items|, jsonLength);
      if |items| != 1 && size != 0 {
        SendEachInOrder(Chunks(items, size), |items|);
      } else {
        assert SendTrace(items).batches == [];
        assert Flatten(SendTrace(items).batches) == [];
      }
    } else {
      assert SendTrace(items) == Trace([items], false);
      assert [items][1..] == [];
      assert Flatten([items]) == items + [];
      assert Flatten(SendTrace(items).batches) == items;
      SubseqRefl(items);
    }
  }

  lemma {:induction false} SendEachInOrder(chunks: seq<seq<Item>>, bound: nat)
    requires forall i :: 0 <= i < |chunks| ==> |chunks[i]| < bound
    ensures IsSubseq(Flatten(SendEach(chunks, bound).batches), Flatten(chunks))
    decreases bound, 0, |chunks|
  {
    if chunks != [] {
      var first := SendTrace(chunks[0]);
      SendTraceInOrder(chunks[0]);
      if first.failed {
        SubseqAppend(Flatten(first.batches), chunks[0], [], Flatten(chunks[1..]));
        assert Flatten(first.batches) + [] == Flatten(first.batches);
      } else {
        var rest := SendEach(chunks[1..], bound);
        SendEachInOrder(chunks[1..], bound);
        FlattenAppend(first.batches, rest.batches);
        SubseqAppend(Flatten(first.batches), chunks[0], Flatten(rest.batches), Flatten(chunks[1..]));
      }
    }
  }

  /** Every record, posted alone, would fit. */
  predicate EachFits(items: seq<Item>) {
    forall x :: x in items ==> |Json([x])| <= Config.MAX_POST_LENGTH
  }

  lemma {:induction false} FlattenMembers(chunks: seq<seq<Item>>, i: nat)
    requires i < |chunks|
    ensures forall x :: x in chunks[i] ==> x in Flatten(chunks)
  {
    if i > 0 {
      FlattenMembers(chunks[1..], i - 1);
    }
  }

  lemma OnlyRecordFits(items: seq<Item>)
    requires |items| == 1 && EachFits(items)
    ensures |Json(items)| <= Config.MAX_POST_LENGTH
  {
    assert items == [items[0]];
    assert items[0] in items;
  }

  /**
   * When every record fits on its own, the joined texts of `n` records leave
   * room for the brackets within `n` posts: each record is at most
   * MAX_POST_LENGTH - 2 bytes, and each comma takes one more.
   */
  lemma {:induction false} JoinWithinPosts(items: seq<Item>)
    requires |items| >= 1 && EachFits(items)
    ensures |Join(items)| + 1 <= |items| * (Config.MAX_POST_LENGTH - 1)
    decreases |items|
  {
    assert items[0] in items;
    assert |Json([items[0]])| == |items[0]| + 2;
    if |items| > 1 {
      assert forall x :: x in items[1..] ==> x in items;
      JoinWithinPosts(items[1..]);
    }
  }

  /**
   * A list of at least two records that each fit on their own never has
   * fewer records than the posts its JSON needs, so its chunk size is not 0.
   */
  lemma ChunkSizePositive(items: seq<Item>)
    requires |items| >= 2 && EachFits(items)
    requires |Json(items)| > Config.MAX_POST_LENGTH
    ensures ChunkSize(|items|, |Json(items)|) > 0
  {
    JoinWithinPosts(items);
    var posts := CeilDiv(|Json(items)|, Config.MAX_POST_LENGTH);
    assert |Json(items)| <= |items| * Config.MAX_POST_LENGTH;
    assert (posts - 1) * Config.MAX_POST_LENGTH < |items| * Config.MAX_POST_LENGTH;
    assert posts <= |items|;
  }

  lemma {:induction false} SendTraceComplete(items: seq<Item>)
    requires EachFits(items)
    ensures !SendTrace(items).failed
    ensures Flatten(SendTrace(items).batches) == items
    decreases |items|, 1, 0
  {
    var jsonLength := |Json(items)|;
    if jsonLength > Config.MAX_POST_LENGTH {
      if |items| == 1 {
        OnlyRecordFits(items);
        assert false;
      } else {
        ChunkSizePositive(items);
        var size := ChunkSize(|items|, jsonLength);
        SendEachComplete(Chunks(items, size), |items|);
      }
    } else {
      assert [items][1..] == [];
      assert Flatten([items]) == items + [];
    }
  }

  lemma {:induction false} SendEachComplete(chunks: seq<seq<Item>>, bound: nat)
    requires forall i :: 0 <= i < |chunks| ==> |chunks[i]| < bound
    requires EachFits(Flatten(chunks))
    ensures !SendEach(chunks, bound).failed
    ensures Flatten(SendEach(chunks, bound).batches) == Flatten(chunks)
    decreases bound, 0, |chunks|
  {
    if chunks != [] {
      var first := SendTrace(chunks[0]);
      FlattenMembers(chunks, 0);
      SendTraceComplete(chunks[0]);
      var rest := SendEach(chunks[1..], bound);
      SendEachComplete(chunks[1..], bound);
      FlattenAppend(first.batches, rest.batches);
    }
  }

  /**
   * When every record fits on its own, `send` raises nothing and the batches
   * it posts are exactly the input, cut into consecutive pieces: the
   * chunk-size error needs a record that is over the ceiling by itself.
   */
  lemma SendLosesNothing(items: seq<Item>)
    requires EachFits(items)
    ensures !SendTrace(items).failed
    ensures Flatten(SendTrace(items).batches) == items
  {
    SendTraceComplete(items);
  }

  /**
   * The chunk size is 0, and `send` raises before posting anything, when the
   * list is over the ceiling and holds fewer records than posts it needs.
   * Two records that are each over the ceiling on their own are such a list.
   */
  lemma TwoOversizedRecordsRaise(a: Item, b: Item)
    requires |Json([a])| > Config.MAX_POST_LENGTH
    requires |Json([b])| > Config.MAX_POST_LENGTH
    ensures SendTrace([a, b]) == Trace([], true)
  {
    JsonOfTwo(a, b);
    var n := |Json([a, b])|;
    assert CeilDiv(n, Config.MAX_POST_LENGTH) >= 3;
  }

  // ---------------------------------------------------------------------------
  // Option validation and headers

  /** The two fixed regexes of `getAllowedOptions`. */
  datatype Pattern =
    | AnyCharacter   // '/.+/'
    | OptionalBit    // '/^(0|1)?$/'

  datatype OptionRule = OptionRule(name: string, pattern: Pattern)

  /** `getAllowedOptions`, in its declaration order. */
  function AllowedOptions(): (rules: seq<OptionRule>)
    ensures |rules| == 2
    ensures rules[0] == OptionRule("proxy", AnyCharacter) && rules[1] == OptionRule("debug", OptionalBit)
  {
    [OptionRule("proxy", AnyCharacter), OptionRule("debug", OptionalBit)]
  }

  /**
   * `preg_match` with the two patterns. `.` matches anything but a newline;
   * `$` matches at the end or before a final newline.
   */
  predicate Matches(p: Pattern, value: string)
    ensures Matches(p, value) && p == AnyCharacter ==> value != ""
    ensures Matches(p, value) && p == OptionalBit ==> |value| <= 2
  {
    match p
    case AnyCharacter => exists i :: 0 <= i < |value| && value[i] != '\n'
    case OptionalBit =>
      value == "" || value == "0" || value == "1" || value == "\n" || value == "0\n" || value == "1\n"
  }

  function InvalidOption(name: string): Error {
    CSBException("Option '" + name + "' has invalid value")
  }

  datatype Header = Header(name: string, value: string)

  /**
   * `getApiHeaders`, in order; `apiKey` is the configured key (a key never
   * set concatenates as the empty string).
   */
  function ApiHeaders(apiKey: string): (headers: seq<Header>)
    ensures |headers| == 3
    ensures headers[0] == Header("Content-Type", "application/json")
    ensures headers[1] == Header("Accept", "application/json")
    ensures headers[2].name == "Authorization" && headers[2].value == "Bearer " + apiKey
  {
    [Header("Content-Type", "application/json"),
     Header("Accept", "application/json"),
     Header("Authorization", "Bearer " + apiKey)]
  }

  // ---------------------------------------------------------------------------
  // The transport object

  class APITransport {
    const config: Config.Configuration
    var proxy: Option<string>
    var debug: Option<string>
    var queue: seq<Item>
    /** Every payload handed to `sendChunk`, oldest first. */
    var sent: seq<string>

    /** The queue never exceeds MAX_QUEUE_LENGTH + 1 records and no payload ever posted exceeds the ceiling. */
    ghost predicate Valid()
      reads this
    {
      |queue| <= MAX_QUEUE_LENGTH + 1 &&
      forall i :: 0 <= i < |sent| ==> |sent[i]| <= Config.MAX_POST_LENGTH
    }

    /** The object before its constructor validates the options. */
    constructor Init(config: Config.Configuration)
      ensures this.config == config
      ensures proxy == None && debug == None && queue == [] && sent == []
      ensures Valid()
    {
      this.config := config;
      proxy := None;
      debug := None;
      queue := [];
      sent := [];
    }

    /**
     * The constructor: keep the configuration, then validate its options.
     * It raises for the first listed option present with an invalid value;
     * otherwise each present option is stored and the queue and log are empty.
     */
    static method New(config: Config.Configuration) returns (r: Result<APITransport>)
      ensures var proxyOk := "proxy" !in config.options || Matches(AnyCharacter, config.options["proxy"]);
              var debugOk := "debug" !in config.options || Matches(OptionalBit, config.options["debug"]);
        && (r.Ok? <==> proxyOk && debugOk)
        && (!proxyOk ==> r == Err(InvalidOption("proxy")))
        && (proxyOk && !debugOk ==> r == Err(InvalidOption("debug")))
      ensures r.Ok? ==> fresh(r.value) && r.value.Valid() && r.value.config == config
      ensures r.Ok? ==> r.value.queue == [] && r.value.sent == []
      ensures r.Ok? ==> r.value.proxy == (if "proxy" in config.options then Some(config.options["proxy"]) else None)
      ensures r.Ok? ==> r.value.debug == (if "debug" in config.options then Some(config.options["debug"]) else None)
    {
      var t := new APITransport.Init(config);
      var o := t.VerifyOptions(config.options);
      if o.Fail? {
        return Err(o.error);
      }
      return Ok(t);
    }

    /**
     * `verifyOptions`: for each allowed option present in `options`, store it
     * in the field of the same name if it matches its pattern, otherwise raise.
     * Options not listed are ignored.
     */
    method VerifyOptions(options: map<string, string>) returns (r: Outcome)
      modifies this`proxy, this`debug
      ensures var proxyOk := "proxy" !in options || Matches(AnyCharacter, options["proxy"]);
              var debugOk := "debug" !in options || Matches(OptionalBit, options["debug"]);
        && (r == if !proxyOk then Fail(InvalidOption("proxy"))
                 else if !debugOk then Fail(InvalidOption("debug"))
                 else Pass)
        && proxy == (if "proxy" in options && proxyOk then Some(options["proxy"]) else old(proxy))
        && debug == (if "debug" in options && proxyOk && debugOk then Some(options["debug"]) else old(debug))
    {
      var rules := AllowedOptions();
      var i := 0;
      while i < |rules|
        invariant 0 <= i <= |rules|
        invariant forall j :: 0 <= j < i && rules[j].name in options ==> Matches(rules[j].pattern, options[rules[j].name])
        invariant proxy == if i >= 1 && "proxy" in options then Some(options["proxy"]) else old(proxy)
        invariant debug == if i >= 2 && "debug" in options then Some(options["debug"]) else old(debug)
      {
        var rule := rules[i];
        if rule.name in options {
          var value := options[rule.name];
          if Matches(rule.pattern, value) {
            if rule.name == "proxy" {
              proxy := Some(value);
            } else {
              debug := Some(value);
            }
          } else {
            return Fail(InvalidOption(rule.name));
          }
        }
        i := i + 1;
      }
      return Pass;
    }

    /** `addEntry`: append to the tail while the queue holds at most MAX_QUEUE_LENGTH records. */
    method AddEntry(item: Item)
      requires Valid()
      modifies this`queue
      ensures Valid()
      ensures queue == Enqueue(old(queue), item)
      ensures |old(queue)| <= MAX_QUEUE_LENGTH ==> queue == old(queue) + [item]
      ensures |old(queue)| > MAX_QUEUE_LENGTH ==> queue == old(queue)
    {
      if |queue| <= MAX_QUEUE_LENGTH {
        queue := queue + [item];
      }
    }

    /** `sendChunk`: hand one payload to the concrete transport. */
    method SendChunk(data: string)
      modifies this`sent
      ensures sent == old(sent) + [data]
    {
      sent := sent + [data];
    }

    /**
     * `send($items)`: the payloads it posts are those of SendTrace, and it
     * raises exactly when SendTrace ends in the chunk-size error.
     */
    method Send(items: seq<Item>) returns (r: Outcome)
      requires Valid()
      modifies this`sent
      ensures Valid()
      ensures sent == old(sent) + Payloads(SendTrace(items).batches)
      ensures r == if SendTrace(items).failed then Fail(ChunkSizeError) else Pass
      decreases |items|, 1
    {
      var json := Json(items);
      if |json| > Config.MAX_POST_LENGTH {
        if |items| == 1 {
          // nothing to divide: the record is dropped silently
          return Pass;
        }
        var size := ChunkSize(|items|, |json|);
        if size == 0 {
          return Fail(ChunkSizeError);
        }
        r := SendChunks(Chunks(items, size), |items|);
      } else {
        SendChunk(json);
        return Pass;
      }
    }

    /** The `foreach` of `send` over the chunks: stops at the first `send` that raises. */
    method SendChunks(chunks: seq<seq<Item>>, bound: nat) returns (r: Outcome)
      requires forall j :: 0 <= j < |chunks| ==> |chunks[j]| < bound
      requires Valid()
      modifies this`sent
      ensures Valid()
      ensures sent == old(sent) + Payloads(SendEach(chunks, bound).batches)
      ensures r == if SendEach(chunks, bound).failed then Fail(ChunkSizeError) else Pass
      decreases bound, 0
    {
      ghost var whole := SendEach(chunks, bound);
      var i := 0;
      ghost var posted: seq<seq<Item>> := [];
      assert chunks[0..] == chunks;
      while i < |chunks|
        invariant 0 <= i <= |chunks|
        invariant Valid()
        invariant sent == old(sent) + Payloads(posted)
        invariant whole == Prefixed(posted, SendEach(chunks[i..], bound))
      {
        PrefixedStep(chunks, bound, i, posted);
        ghost var first := SendTrace(chunks[i]);
        var o := Send(chunks[i]);
        PayloadsAppend(posted, first.batches);
        posted := posted + first.batches;
        if o.Fail? {
          return o;
        }
        i := i + 1;
      }
      assert chunks[i..] == [];
      assert posted + [] == posted;
      return Pass;
    }

    /**
     * `flush`: nothing when the queue is empty; otherwise one `send` of the
     * whole queue, after which the queue is emptied unless `send` raised.
     */
    method Flush() returns (r: Outcome)
      requires Valid()
      modifies this`queue, this`sent
      ensures Valid()
      ensures old(queue) == [] ==> r == Pass && queue == [] && sent == old(sent)
      ensures old(queue) != [] ==>
        && sent == old(sent) + Payloads(SendTrace(old(queue)).batches)
        && r == (if SendTrace(old(queue)).failed then Fail(ChunkSizeError) else Pass)
        && queue == (if r.Pass? then [] else old(queue))
    {
      if queue == [] {
        return Pass;
      }
      r := Send(queue);
      if r.Fail? {
        return r;
      }
      queue := [];
    }
  }
}
