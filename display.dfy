/** The loop both calculators end with: every recommendation paragraph is
    written as markdown and followed by an empty markdown call that spaces it
    from the next. The markdown calls are recorded as a trace of blocks. */
module Display {

  /** One markdown call: a paragraph, or the empty spacer after it. */
  datatype Block<P> = Markdown(part: P) | Blank

  /** The trace the loop produces: each paragraph followed by a spacer. */
  function Interleaved<P>(parts: seq<P>): (r: seq<Block<P>>)
    ensures |r| == 2 * |parts|
  {
    if |parts| == 0 then [] else [Markdown(parts[0]), Blank] + Interleaved(parts[1..])
  }

  /** The paragraphs a trace shows, spacers dropped. */
  function Shown<P>(out: seq<Block<P>>): seq<P>
  {
    if |out| == 0 then []
    else (match out[0] case Markdown(p) => [p] case Blank => []) + Shown(out[1..])
  }

  /** Paragraph k is the (2k)-th call and is followed by a spacer. */
  lemma {:induction false} InterleavedAt<P>(parts: seq<P>, k: nat)
    requires k < |parts|
    ensures Interleaved(parts)[2 * k] == Markdown(parts[k])
    ensures Interleaved(parts)[2 * k + 1] == Blank
  {
    if k > 0 {
      InterleavedAt(parts[1..], k - 1);
    }
  }

  /** The trace shows exactly the paragraphs, in their order. */
  lemma {:induction false} ShownInterleaved<P>(parts: seq<P>)
    ensures Shown(Interleaved(parts)) == parts
  {
    if |parts| > 0 {
      var r := Interleaved(parts);
      assert r[1..][1..] == Interleaved(parts[1..]);
      ShownInterleaved(parts[1..]);
    }
  }

  /** The display loop. */
  method Show<P>(parts: seq<P>) returns (out: seq<Block<P>>)
    ensures out == Interleaved(parts)
  {
    out := [];
    for i := 0 to |parts|
      invariant |out| == 2 * i
      invariant forall k :: 0 <= k < i ==> out[2 * k] == Markdown(parts[k]) && out[2 * k + 1] == Blank
    {
      out := out + [Markdown(parts[i]), Blank];
    }
    forall j | 0 <= j < |out|
      ensures out[j] == Interleaved(parts)[j]
    {
      InterleavedAt(parts, j / 2);
    }
  }
}
