/** The streamed mode's publish loop: every chunk whose delta content is a
    non-empty string is published, in arrival order, on the topic named by
    the conversation key; empty and missing deltas are skipped. */
module Streaming {
  import opened Wrappers
  import opened Chat

  /** The delta carries text worth publishing (JavaScript truthiness). */
  predicate Publishable(delta: Option<string>) {
    delta.Some? && delta.value != ""
  }

  /** The reference definition: the non-empty delta texts, in order. */
  function Chunks(deltas: seq<Option<string>>): (ts: seq<string>)
    ensures |ts| <= |deltas|
    ensures forall k :: 0 <= k < |ts| ==> ts[k] != ""
  {
    if |deltas| == 0 then []
    else (if Publishable(deltas[0]) then [deltas[0].value] else []) + Chunks(deltas[1..])
  }

  /** Chunks of a concatenation are the chunks of each part, in order. */
  lemma {:induction false} ChunksConcat(a: seq<Option<string>>, b: seq<Option<string>>)
    ensures Chunks(a + b) == Chunks(a) + Chunks(b)
    decreases |a|
  {
    if |a| == 0 {
      assert a + b == b;
    } else {
      ChunksConcat(a[1..], b);
      assert (a + b)[1..] == a[1..] + b;
    }
  }

  /** A text is published exactly when some delta carries it and it is not
      empty. */
  lemma {:induction false} ChunksMembership(deltas: seq<Option<string>>, t: string)
    ensures t in Chunks(deltas) <==> t != "" && Some(t) in deltas
    decreases |deltas|
  {
    if |deltas| > 0 {
      ChunksMembership(deltas[1..], t);
      assert deltas == [deltas[0]] + deltas[1..];
    }
  }

  /** The publications for the given texts, all on one topic. */
  function Announce(topic: Option<string>, texts: seq<string>): (log: seq<Publication>)
    ensures |log| == |texts|
    ensures forall k :: 0 <= k < |log| ==> log[k] == Publication(topic, texts[k])
  {
    seq(|texts|, k requires 0 <= k < |texts| => Publication(topic, texts[k]))
  }

  /** The loop of `handleStreamResponse`: one publish per publishable delta,
      in arrival order. */
  method PublishStream(topic: Option<string>, deltas: seq<Option<string>>) returns (log: seq<Publication>)
    ensures |log| == |Chunks(deltas)|
    ensures forall k :: 0 <= k < |log| ==> log[k] == Publication(topic, Chunks(deltas)[k])
  {
    log := [];
    var i := 0;
    while i < |deltas|
      invariant 0 <= i <= |deltas|
      invariant log == Announce(topic, Chunks(deltas[..i]))
    {
      var delta := deltas[i];
      ChunksConcat(deltas[..i], [delta]);
      assert deltas[..i + 1] == deltas[..i] + [delta];
      if Publishable(delta) {
        log := log + [Publication(topic, delta.value)];
      }
      i := i + 1;
    }
    assert deltas[..i] == deltas;
  }
}
