/** The response buffering inside `OllamaAgent::generate`. The Ollama client
    streams the model's answer as a sequence of chunks; each chunk is
    appended to a buffer, and whenever a chunk ends in '.', the whole buffer
    is converted from Markdown to HTML, handed to the caller's callback and
    cleared. The stream of chunks is a parameter (the network call that
    produces it is not modelled), the callback's invocations are the
    returned sequence, and the Markdown-to-HTML conversion is the opaque
    function `toHtml`. */
module ResponseStream {

  /** Buffer state after some chunks: the texts flushed so far (before HTML
      conversion), in order, and the text still waiting in the buffer. */
  datatype StreamState = StreamState(flushed: seq<string>, buffer: string)

  /** Every chunk is non-empty: the source reads each chunk's last character. */
  predicate NonEmptyChunks(chunks: seq<string>)
  {
    forall i :: 0 <= i < |chunks| ==> chunks[i] != []
  }

  predicate EndsWithPeriod(chunk: string)
  {
    |chunk| > 0 && chunk[|chunk| - 1] == '.'
  }

  /** One chunk arrives: append it, and flush if it ends in '.'. */
  function Feed(st: StreamState, chunk: string): StreamState
    requires chunk != []
  {
    var b := st.buffer + chunk;
    if EndsWithPeriod(chunk) then StreamState(st.flushed + [b], "") else StreamState(st.flushed, b)
  }

  /** The state after the chunks arrive in order, starting from an empty buffer. */
  function Run(chunks: seq<string>): StreamState
    requires NonEmptyChunks(chunks)
  {
    if chunks == [] then StreamState([], "")
    else Feed(Run(chunks[..|chunks| - 1]), chunks[|chunks| - 1])
  }

  /** All chunks joined in arrival order. */
  function Concat(parts: seq<string>): string
  {
    if parts == [] then "" else Concat(parts[..|parts| - 1]) + parts[|parts| - 1]
  }

  /** Number of chunks that end in '.'. */
  function PeriodCount(chunks: seq<string>): nat
  {
    if chunks == [] then 0
    else PeriodCount(chunks[..|chunks| - 1]) + if EndsWithPeriod(chunks[|chunks| - 1]) then 1 else 0
  }

  lemma ConcatSnoc(parts: seq<string>, p: string)
    ensures Concat(parts + [p]) == Concat(parts) + p
  {
    assert (parts + [p])[..|parts|] == parts;
  }

  /** `generate`: the texts passed to the callback, in order. */
  method Generate(chunks: seq<string>, toHtml: string -> string) returns (sent: seq<string>)
    requires NonEmptyChunks(chunks)
    ensures |sent| == |Run(chunks).flushed|
    ensures forall j :: 0 <= j < |sent| ==> sent[j] == toHtml(Run(chunks).flushed[j])
  {
    var buffer := "";
    ghost var flushed: seq<string> := [];
    sent := [];
    var i := 0;
    while i < |chunks|
      invariant 0 <= i <= |chunks|
      invariant NonEmptyChunks(chunks[..i])
      invariant Run(chunks[..i]) == StreamState(flushed, buffer)
      invariant |sent| == |flushed|
      invariant forall j :: 0 <= j < |sent| ==> sent[j] == toHtml(flushed[j])
    {
      var response := chunks[i];
      assert chunks[..i + 1][..i] == chunks[..i];
      buffer := buffer + response;
      if response[|response| - 1] == '.' {
        sent := sent + [toHtml(buffer)];
        flushed := flushed + [buffer];
        buffer := "";
      }
      i := i + 1;
    }
    assert chunks[..i] == chunks;
  }

  /** Nothing is lost or reordered: the flushed texts followed by the buffer
      are exactly the chunks joined in arrival order. */
  lemma {:induction false} RunPreservesText(chunks: seq<string>)
    requires NonEmptyChunks(chunks)
    ensures Concat(Run(chunks).flushed) + Run(chunks).buffer == Concat(chunks)
  {
    if chunks != [] {
      var init, c := chunks[..|chunks| - 1], chunks[|chunks| - 1];
      assert NonEmptyChunks(init);
      RunPreservesText(init);
      FeedPreservesText(Run(init), c);
    }
  }

  /** One chunk: the joined text grows by exactly that chunk. */
  lemma FeedPreservesText(st: StreamState, c: string)
    requires c != []
    ensures Concat(Feed(st, c).flushed) + Feed(st, c).buffer == Concat(st.flushed) + st.buffer + c
  {
    if c[|c| - 1] == '.' {
      ConcatSnoc(st.flushed, st.buffer + c);
    }
  }

  /** The callback fires once per chunk that ends in '.', and never otherwise. */
  lemma {:induction false} FlushCount(chunks: seq<string>)
    requires NonEmptyChunks(chunks)
    ensures |Run(chunks).flushed| == PeriodCount(chunks)
  {
    if chunks != [] {
      var init := chunks[..|chunks| - 1];
      assert NonEmptyChunks(init);
      FlushCount(init);
    }
  }

  /** One more chunk: if it ends in '.', the callback receives everything
      buffered since the previous flush followed by this chunk, and the
      buffer is empty afterwards; otherwise nothing is delivered and the
      chunk is appended to the buffer. */
  lemma NextChunk(chunks: seq<string>, c: string)
    requires NonEmptyChunks(chunks) && c != []
    ensures NonEmptyChunks(chunks + [c])
    ensures EndsWithPeriod(c) ==>
      Run(chunks + [c]) == StreamState(Run(chunks).flushed + [Run(chunks).buffer + c], "")
    ensures !EndsWithPeriod(c) ==>
      Run(chunks + [c]) == StreamState(Run(chunks).flushed, Run(chunks).buffer + c)
  {
    assert (chunks + [c])[..|chunks|] == chunks;
  }

  /** Chunks after the last '.'-terminated one are never delivered: they
      stay in the buffer, which `generate` discards when it returns. */
  lemma {:induction false} TailStaysBuffered(chunks: seq<string>, k: nat)
    requires NonEmptyChunks(chunks) && k <= |chunks|
    requires forall i :: k <= i < |chunks| ==> !EndsWithPeriod(chunks[i])
    ensures NonEmptyChunks(chunks[..k])
    ensures Run(chunks).flushed == Run(chunks[..k]).flushed
    ensures Run(chunks).buffer == Run(chunks[..k]).buffer + Concat(chunks[k..])
  {
    PrefixNonEmpty(chunks, k);
    if k == |chunks| {
      assert chunks[..k] == chunks;
    } else {
      var init, c := chunks[..|chunks| - 1], chunks[|chunks| - 1];
      PrefixNonEmpty(chunks, |chunks| - 1);
      assert init[..k] == chunks[..k];
      TailStaysBuffered(init, k);
      var before := Run(chunks[..k]);
      assert !EndsWithPeriod(c);
      assert Run(chunks) == StreamState(Run(init).flushed, Run(init).buffer + c);
      assert chunks[k..] == init[k..] + [c];
      ConcatSnoc(init[k..], c);
      assert Run(init).buffer + c == before.buffer + (Concat(init[k..]) + c);
    }
  }

  lemma PrefixNonEmpty(chunks: seq<string>, k: nat)
    requires NonEmptyChunks(chunks) && k <= |chunks|
    ensures NonEmptyChunks(chunks[..k])
  {
    assert forall i :: 0 <= i < k ==> chunks[..k][i] == chunks[i];
  }
}
