/** How the garbled entries cross the wire: full chunks of `BATCH` entries and a last shorter one, each chunk sent as
    its ciphertexts followed by its parity bits (pass_ctx.h, the sender and receiver loops). */
module Framing {
  import opened Blocks
  import opened Cells

  const BATCH: nat := 65536

  datatype Item = Row(row: Block) | Flag(flag: bool)

  /** The ciphertexts of a chunk. */
  function Rows(es: seq<Entry>): (items: seq<Item>)
    ensures |items| == 2 * |es|
  {
    if es == [] then [] else Rows(es[..|es| - 1]) + [Row(es[|es| - 1].g0), Row(es[|es| - 1].g1)]
  }

  /** The parity bits of a chunk. */
  function Flags(es: seq<Entry>): (items: seq<Item>)
    ensures |items| == |es|
  {
    if es == [] then [] else Flags(es[..|es| - 1]) + [Flag(es[|es| - 1].b)]
  }

  function Frame(es: seq<Entry>): (items: seq<Item>)
    ensures |items| == 3 * |es|
  {
    Rows(es) + Flags(es)
  }

  /** Size of the last chunk of `n > 0` entries: a full one if `n` is a multiple of the batch. */
  function LastChunk(n: nat): (t: nat)
    requires n > 0
    ensures 0 < t <= BATCH && t <= n && (n - t) % BATCH == 0
  {
    if n % BATCH == 0 then BATCH else n % BATCH
  }

  /** Everything on the wire for the entries `es`. */
  function Framed(es: seq<Entry>): (items: seq<Item>)
    ensures |items| == 3 * |es|
  {
    if es == [] then [] else
    var full := |es| - LastChunk(|es|);
    Framed(es[..full]) + Frame(es[full..])
  }

  lemma LastChunkOf(full: nat, last: nat)
    requires full % BATCH == 0 && 0 < last <= BATCH
    ensures LastChunk(full + last) == last
  {
  }

  lemma {:induction false} FramedSplits(es: seq<Entry>, full: nat)
    requires full % BATCH == 0 && full < |es| <= full + BATCH
    ensures Framed(es) == Framed(es[..full]) + Frame(es[full..])
  {
    hide LastChunk, Frame;
    LastChunkOf(full, |es| - full);
  }

  /** Shipping one more chunk after full ones. */
  lemma {:induction false} FramedGrows(es: seq<Entry>, chunk: seq<Entry>)
    requires |es| % BATCH == 0 && 0 < |chunk| <= BATCH
    ensures Framed(es + chunk) == Framed(es) + Frame(chunk)
  {
    hide Framed, Frame;
    FramedSplits(es + chunk, |es|);
    assert (es + chunk)[..|es|] == es && (es + chunk)[|es|..] == chunk;
  }

  /** The chunk a receiver reads at entry `base` is the chunk the sender framed there. */
  lemma {:induction false} FrameAt(es: seq<Entry>, base: nat, size: nat)
    requires base % BATCH == 0 && base < |es| && size == (if |es| - base < BATCH then |es| - base else BATCH)
    ensures Framed(es)[3 * base..3 * (base + size)] == Frame(es[base..base + size])
  {
    hide Frame, Framed;
    var full := |es| - LastChunk(|es|);
    FramedSplits(es, full);
    var x, y := Framed(es[..full]), Frame(es[full..]);
    if base == full {
      assert es[base..base + size] == es[full..];
      assert (x + y)[3 * base..3 * (base + size)] == y;
    } else {
      assert base + size <= full;
      FrameAt(es[..full], base, size);
      assert es[..full][base..base + size] == es[base..base + size];
      assert (x + y)[3 * base..3 * (base + size)] == x[3 * base..3 * (base + size)];
    }
  }

  /** Reading a chunk back: entry `i` is what was framed as entry `i`. */
  lemma {:induction false} FrameReadsBack(es: seq<Entry>, i: nat)
    requires i < |es|
    ensures Frame(es)[2 * i] == Row(es[i].g0) && Frame(es)[2 * i + 1] == Row(es[i].g1)
    ensures Frame(es)[2 * |es| + i] == Flag(es[i].b)
  {
    RowsAt(es, i);
    FlagsAt(es, i);
  }

  lemma {:induction false} RowsAt(es: seq<Entry>, i: nat)
    requires i < |es|
    ensures Rows(es)[2 * i] == Row(es[i].g0) && Rows(es)[2 * i + 1] == Row(es[i].g1)
  {
    if i < |es| - 1 {
      RowsAt(es[..|es| - 1], i);
    }
  }

  lemma {:induction false} FlagsAt(es: seq<Entry>, i: nat)
    requires i < |es|
    ensures Flags(es)[i] == Flag(es[i].b)
  {
    if i < |es| - 1 {
      FlagsAt(es[..|es| - 1], i);
    }
  }
}
