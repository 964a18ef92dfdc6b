/** apps/vectorize/src/flatten.ts: turning exported tweet files into one
    array of tweets. Reading the file and `JSON.parse` are inputs (the text
    read or the read error; the parse outcome of a chunk), and so is the
    regular-expression split of the JSON export into chunks. */
module Flatten {

  import opened JsValues
  import opened JsStrings

  datatype ErrorKind = ParseError | ReadError | WriteError
  datatype FlattenError = FlattenError(kind: ErrorKind, message: string)

  /** `ExportableTweet`. */
  datatype Tweet = Tweet(fullText: string)

  /** `readFileSync`: the file's text, or the message of what it threw. */
  type ReadResult = Result<string, string>

  const ExpectedArrayMessage := "Expected array"
  const SyntaxErrorPrefix := "SyntaxError: "

  /** `parseChunk`: a chunk that parses to an array gives that array as it
      is; any other JSON value is a ParseError "Expected array", and a
      SyntaxError is a ParseError with the text `String(e)` gives for it:
      its name, a colon and a space, then its message. */
  function ParseChunk(chunk: string, parse: string -> ParseResult): (r: Result<seq<JsonValue>, FlattenError>)
    ensures r.Ok? <==> parse(chunk).Ok? && parse(chunk).value.JArray?
    ensures r.Ok? ==> r.value == parse(chunk).value.items
    ensures r.Err? ==> r.error.kind == ParseError
    ensures parse(chunk).Ok? && !parse(chunk).value.JArray? ==> r == Err(FlattenError(ParseError, ExpectedArrayMessage))
    ensures parse(chunk).Err? ==> r == Err(FlattenError(ParseError, SyntaxErrorPrefix + parse(chunk).error))
  {
    match parse(chunk)
    case Err(message) => Err(FlattenError(ParseError, SyntaxErrorPrefix + message))
    case Ok(JArray(items)) => Ok(items)
    case Ok(_) => Err(FlattenError(ParseError, ExpectedArrayMessage))
  }

  /** `chunk.trim().length > 0`. */
  predicate IsBlank(s: string) {
    Trim(s) == ""
  }

  /** What one chunk contributes to `flattenTweets`: nothing when it is
      blank or does not parse to an array, else the array's elements. */
  function ChunkContribution(chunk: string, parse: string -> ParseResult): (r: seq<JsonValue>)
    ensures IsBlank(chunk) ==> r == []
    ensures !IsBlank(chunk) && parse(chunk).Ok? && parse(chunk).value.JArray? ==> r == parse(chunk).value.items
    ensures !(parse(chunk).Ok? && parse(chunk).value.JArray?) ==> r == []
  {
    if IsBlank(chunk) then []
    else
      match ParseChunk(chunk, parse)
      case Ok(items) => items
      case Err(_) => []
  }

  /** `flatMap`: the lists `f` gives for the elements, concatenated in order. */
  function FlatMap<T, U>(xs: seq<T>, f: T -> seq<U>): (r: seq<U>)
    ensures forall y :: y in r ==> exists k :: 0 <= k < |xs| && y in f(xs[k])
    ensures forall k, y :: 0 <= k < |xs| && y in f(xs[k]) ==> y in r
  {
    if xs == [] then []
    else
      var rest := FlatMap(xs[1..], f);
      assert forall k :: 1 <= k < |xs| ==> xs[1..][k - 1] == xs[k];
      f(xs[0]) + rest
  }

  lemma {:induction false} FlatMapAppend<T, U>(a: seq<T>, b: seq<T>, f: T -> seq<U>)
    ensures FlatMap(a + b, f) == FlatMap(a, f) + FlatMap(b, f)
  {
    if a == [] {
      assert a + b == b;
    } else {
      assert (a + b)[0] == a[0] && (a + b)[1..] == a[1..] + b;
      FlatMapAppend(a[1..], b, f);
    }
  }

  /** The filter, parse and `flatMap` of `flattenTweets`: the contributions
      of the chunks, concatenated. */
  function MergeChunks(chunks: seq<string>, parse: string -> ParseResult): (r: seq<JsonValue>)
    ensures forall v :: v in r ==> exists k :: 0 <= k < |chunks| && v in ChunkContribution(chunks[k], parse)
    ensures forall k, v :: 0 <= k < |chunks| && v in ChunkContribution(chunks[k], parse) ==> v in r
  {
    FlatMap(chunks, chunk => ChunkContribution(chunk, parse))
  }

  /** Merging is compatible with concatenating the chunk list: the output
      is the outputs of the parts in order, so the order of the chunks and
      of the elements inside each chunk is kept. */
  lemma MergeChunksAppend(a: seq<string>, b: seq<string>, parse: string -> ParseResult)
    ensures MergeChunks(a + b, parse) == MergeChunks(a, parse) + MergeChunks(b, parse)
  {
    FlatMapAppend(a, b, chunk => ChunkContribution(chunk, parse));
  }

  /** One chunk on its own contributes its parsed array, or nothing. */
  lemma MergeOneChunk(chunk: string, parse: string -> ParseResult)
    ensures MergeChunks([chunk], parse) == ChunkContribution(chunk, parse)
  {
    assert [chunk][0] == chunk && [chunk][1..] == [];
    assert MergeChunks([chunk], parse) == ChunkContribution(chunk, parse) + MergeChunks([], parse);
  }

  /** `flattenTweets`: a read error is the only error; otherwise the result
      is ok, whatever the chunks, with the merged elements. */
  function FlattenTweets(read: ReadResult, split: string -> seq<string>, parse: string -> ParseResult)
    : (r: Result<seq<JsonValue>, FlattenError>)
    ensures r.Err? <==> read.Err?
    ensures r.Err? ==> r.error == FlattenError(ReadError, read.error)
    ensures r.Ok? ==> r.value == MergeChunks(split(read.value), parse)
  {
    match read
    case Err(message) => Err(FlattenError(ReadError, message))
    case Ok(content) => Ok(MergeChunks(split(content), parse))
  }

  /** What one line gives: nothing when it is blank, else one tweet with
      its trimmed text. */
  function LineTweets(line: string): (r: seq<Tweet>)
    ensures |r| <= 1
    ensures r == [] <==> AllWhitespace(line)
    ensures r != [] ==> r[0].fullText == Trim(line) && r[0].fullText != ""
  {
    TrimEmpty(line);
    if IsBlank(line) then [] else [Tweet(Trim(line))]
  }

  /** The line processing of `flattenTextTweets` (filter on the trimmed
      length, then map to the trimmed text), one line at a time. */
  function TweetsFromLines(lines: seq<string>): (r: seq<Tweet>)
    ensures |r| <= |lines|
    ensures forall k :: 0 <= k < |r| ==> r[k].fullText != ""
  {
    if lines == [] then []
    else TweetsFromLines(lines[..|lines| - 1]) + LineTweets(lines[|lines| - 1])
  }

  /** Every tweet is the trim of some line. */
  lemma {:induction false} TweetComesFromLine(lines: seq<string>, k: nat) returns (j: nat)
    requires k < |TweetsFromLines(lines)|
    ensures j < |lines| && TweetsFromLines(lines)[k].fullText == Trim(lines[j])
  {
    var init, last := lines[..|lines| - 1], lines[|lines| - 1];
    var prev := TweetsFromLines(init);
    assert TweetsFromLines(lines) == prev + LineTweets(last);
    if k < |prev| {
      j := TweetComesFromLine(init, k);
      assert TweetsFromLines(lines)[k] == prev[k];
      assert init[j] == lines[j];
    } else {
      j := |lines| - 1;
      assert TweetsFromLines(lines)[k] == LineTweets(last)[0];
    }
  }

  /** The indices of the lines that are not blank. */
  function NonBlankLines(lines: seq<string>): set<nat> {
    set j: nat | j < |lines| && !IsBlank(lines[j])
  }

  /** Adding a line adds its index to the non-blank ones exactly when it
      is not blank. */
  lemma NonBlankLinesSnoc(lines: seq<string>)
    requires lines != []
    ensures var n := |lines| - 1;
      NonBlankLines(lines) == NonBlankLines(lines[..n]) + (if IsBlank(lines[n]) then {} else {n})
    ensures |lines| - 1 !in NonBlankLines(lines[..|lines| - 1])
  {
    var n := |lines| - 1;
    var init := lines[..n];
    forall j | 0 <= j < n ensures init[j] == lines[j] {
    }
  }

  /** There is one tweet per non-blank line. */
  lemma {:induction false} TweetCountIsNonBlankLineCount(lines: seq<string>)
    ensures |TweetsFromLines(lines)| == |NonBlankLines(lines)|
  {
    if lines == [] {
      assert NonBlankLines(lines) == {};
    } else {
      var n := |lines| - 1;
      TweetCountIsNonBlankLineCount(lines[..n]);
      NonBlankLinesSnoc(lines);
      assert |LineTweets(lines[n])| == if IsBlank(lines[n]) then 0 else 1;
    }
  }

  /** Processing is compatible with concatenating the lines, so the tweets
      come in the order of their lines. */
  lemma {:induction false} TweetsFromLinesAppend(a: seq<string>, b: seq<string>)
    ensures TweetsFromLines(a + b) == TweetsFromLines(a) + TweetsFromLines(b)
  {
    if b == [] {
      assert a + b == a;
    } else {
      var b' := b[..|b| - 1];
      assert (a + b)[..|a + b| - 1] == a + b';
      assert (a + b)[|a + b| - 1] == b[|b| - 1];
      TweetsFromLinesAppend(a, b');
    }
  }

  /** `flattenTextTweets`: a read error is the only error; otherwise one
      tweet per non-blank line of the text, trimmed, none of them empty and
      none holding a line break. */
  function FlattenTextTweets(read: ReadResult): (r: Result<seq<Tweet>, FlattenError>)
    ensures r.Err? <==> read.Err?
    ensures r.Err? ==> r.error == FlattenError(ReadError, read.error)
    ensures r.Ok? ==> r.value == TweetsFromLines(Split(read.value, '\n'))
    ensures r.Ok? ==> |r.value| == |NonBlankLines(Split(read.value, '\n'))|
    ensures r.Ok? ==> forall k :: 0 <= k < |r.value| ==> r.value[k].fullText != "" && '\n' !in r.value[k].fullText
  {
    match read
    case Err(message) => Err(FlattenError(ReadError, message))
    case Ok(content) =>
      var lines := Split(content, '\n');
      var tweets := TweetsFromLines(lines);
      TweetCountIsNonBlankLineCount(lines);
      assert forall k :: 0 <= k < |tweets| ==> '\n' !in tweets[k].fullText by {
        forall k | 0 <= k < |tweets| ensures '\n' !in tweets[k].fullText {
          var j := TweetComesFromLine(lines, k);
          assert '\n' !in lines[j];
          if '\n' in tweets[k].fullText {
            TrimKeepsCharacters(lines[j], '\n');
          }
        }
      }
      Ok(tweets)
  }
}
