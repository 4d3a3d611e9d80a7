/**
 The shared memory of the player: control words and ring buffers, written by
 the main thread (shared-ring.ts) and consumed in lockstep by the audio thread
 (stream-processor.js).
 */
module Rings {
  import opened Prelude
  import opened Wrap32

  const STATE := 0
  const READ_POS := 1
  const UNDERRUNS := 2
  const EOF_POS := 3
  const ENDED := 4
  const QUANTA := 5
  const WRITE_POS0 := 8

  const STOPPED := 0
  const PRIMING := 1
  const PLAYING := 2

  const CTRL_INT32S := 16
  const CTRL_BYTES := 64
  const MAX_STEMS := 8
  const MAX_CHANNELS := 2

  // --- Layout ---------------------------------------------------------------------

  datatype RingLayout = RingLayout(ringFrames: int, mask: int, stems: seq<seq<int>>, totalBytes: int)

  predicate LayoutAccepted(stemChannels: seq<int>, ringFrames: int)
  {
    && IsPowerOfTwo(ringFrames)
    && 1 <= |stemChannels| <= MAX_STEMS
    && forall i :: 0 <= i < |stemChannels| ==> 1 <= stemChannels[i] <= MAX_CHANNELS
  }

  function Channels(stemChannels: seq<int>): int
  {
    if stemChannels == [] then 0 else Channels(stemChannels[..|stemChannels| - 1]) + stemChannels[|stemChannels| - 1]
  }

  /** Ring number k of all starts k rings of `bytes` bytes behind the control block. */
  predicate StemLaidOut(offsets: seq<int>, base: int, channels: int, bytes: int)
  {
    |offsets| == channels && forall c :: 0 <= c < channels ==> offsets[c] == CTRL_BYTES + (base + c) * bytes
  }

  /** The rings of all stems follow each other. */
  ghost predicate LaidOut(offsets: seq<seq<int>>, stemChannels: seq<int>, bytes: int)
  {
    && |offsets| == |stemChannels|
    && forall i :: 0 <= i < |offsets| ==> StemLaidOut(offsets[i], Channels(stemChannels[..i]), stemChannels[i], bytes)
  }

  /** The rings of one stem, `base` rings after the first, and the offset behind them. */
  method StemOffsets(base: int, channels: nat, bytes: int) returns (offsets: seq<int>, offset: int)
    ensures StemLaidOut(offsets, base, channels, bytes) && offset == CTRL_BYTES + (base + channels) * bytes
  {
    offset, offsets := CTRL_BYTES + base * bytes, [];
    for c := 0 to channels
      invariant |offsets| == c && offset == CTRL_BYTES + (base + c) * bytes
      invariant forall k :: 0 <= k < c ==> offsets[k] == CTRL_BYTES + (base + k) * bytes
    {
      offsets := offsets + [offset];
      assert (base + c + 1) * bytes == (base + c) * bytes + bytes;
      offset := offset + bytes;
    }
  }

  lemma OneMoreStem(offsets: seq<seq<int>>, more: seq<int>, stemChannels: seq<int>, i: nat, bytes: int)
    requires i < |stemChannels| && LaidOut(offsets, stemChannels[..i], bytes)
    requires StemLaidOut(more, Channels(stemChannels[..i]), stemChannels[i], bytes)
    ensures LaidOut(offsets + [more], stemChannels[..i + 1], bytes)
    ensures Channels(stemChannels[..i + 1]) == Channels(stemChannels[..i]) + stemChannels[i]
  {
    assert stemChannels[..i + 1][..i] == stemChannels[..i];
    forall k | 0 <= k < i
      ensures StemLaidOut((offsets + [more])[k], Channels(stemChannels[..i + 1][..k]), stemChannels[k], bytes)
    {
      assert stemChannels[..i + 1][..k] == stemChannels[..i][..k];
    }
  }

  /** All stems behind each other; None when a channel count is not 1 or 2. */
  method LayStems(stemChannels: seq<int>, bytes: int) returns (stems: Option<seq<seq<int>>>, offset: int)
    ensures stems.Some? <==> forall i :: 0 <= i < |stemChannels| ==> 1 <= stemChannels[i] <= MAX_CHANNELS
    ensures stems.Some? ==> LaidOut(stems.value, stemChannels, bytes) && offset == CTRL_BYTES + Channels(stemChannels) * bytes
  {
    offset := CTRL_BYTES;
    var laid: seq<seq<int>> := [];
    for i := 0 to |stemChannels|
      invariant LaidOut(laid, stemChannels[..i], bytes)
      invariant offset == CTRL_BYTES + Channels(stemChannels[..i]) * bytes
      invariant forall k :: 0 <= k < i ==> 1 <= stemChannels[k] <= MAX_CHANNELS
    {
      var channels := stemChannels[i];
      if channels < 1 || channels > MAX_CHANNELS {
        return None, offset;
      }
      var offsets;
      offsets, offset := StemOffsets(Channels(stemChannels[..i]), channels, bytes);
      OneMoreStem(laid, offsets, stemChannels, i, bytes);
      laid := laid + [offsets];
    }
    assert stemChannels[..|stemChannels|] == stemChannels;
    stems := Some(laid);
  }

  method CreateRingLayout(stemChannels: seq<int>, ringFrames: int) returns (r: Option<RingLayout>)
    ensures r.Some? <==> LayoutAccepted(stemChannels, ringFrames)
    ensures r.Some? ==>
              LaidOut(r.value.stems, stemChannels, ringFrames * 4) && r.value.mask == ringFrames - 1 &&
              r.value.ringFrames == ringFrames &&
              r.value.totalBytes == CTRL_BYTES + Channels(stemChannels) * (ringFrames * 4)
  {
    if !IsPowerOfTwo(ringFrames) || |stemChannels| == 0 || |stemChannels| > MAX_STEMS {
      return None;
    }
    var stems, offset := LayStems(stemChannels, ringFrames * 4);
    if stems.None? {
      return None;
    }
    return Some(RingLayout(ringFrames, ringFrames - 1, stems.value, offset));
  }

  lemma {:induction false} ChannelsMonotone(stemChannels: seq<int>, i: nat, j: nat)
    requires i <= j <= |stemChannels|
    requires forall k :: 0 <= k < |stemChannels| ==> stemChannels[k] >= 1
    ensures Channels(stemChannels[..i]) <= Channels(stemChannels[..j])
    ensures i < j ==> Channels(stemChannels[..i]) + stemChannels[i] <= Channels(stemChannels[..j])
    decreases j - i
  {
    if i < j {
      ChannelsMonotone(stemChannels, i, j - 1);
      assert stemChannels[..j][..j - 1] == stemChannels[..j - 1];
    }
  }

  /** Two different rings never share a byte, and none reaches past the buffer or into the control block. */
  lemma RingsAreApart(offsets: seq<seq<int>>, stemChannels: seq<int>, bytes: int, i: nat, c: nat, j: nat, d: nat)
    requires bytes > 0 && LaidOut(offsets, stemChannels, bytes)
    requires forall k :: 0 <= k < |stemChannels| ==> stemChannels[k] >= 1
    requires i < |offsets| && c < |offsets[i]| && j < |offsets| && d < |offsets[j]|
    requires i < j || (i == j && c < d)
    ensures CTRL_BYTES <= offsets[i][c] && offsets[i][c] + bytes <= offsets[j][d]
    ensures offsets[j][d] + bytes <= CTRL_BYTES + Channels(stemChannels) * bytes
  {
    var a, b, z := Channels(stemChannels[..i]) + c, Channels(stemChannels[..j]) + d, Channels(stemChannels);
    assert offsets[i][c] == CTRL_BYTES + a * bytes by {
      assert StemLaidOut(offsets[i], Channels(stemChannels[..i]), stemChannels[i], bytes);
    }
    assert offsets[j][d] == CTRL_BYTES + b * bytes by {
      assert StemLaidOut(offsets[j], Channels(stemChannels[..j]), stemChannels[j], bytes);
    }
    assert 0 <= a < b < z by {
      ChannelsMonotone(stemChannels, i, j);
      ChannelsMonotone(stemChannels, 0, i);
      ChannelsMonotone(stemChannels, j, |stemChannels|);
      assert stemChannels[..|stemChannels|] == stemChannels && stemChannels[..0] == [];
    }
    InOrder(a, b, z, bytes);
  }

  lemma InOrder(a: int, b: int, z: int, size: int)
    requires 0 <= a < b < z && size > 0
    ensures 0 <= a * size && a * size + size <= b * size && b * size + size <= z * size
  {
    Scale(0, a, size);
    Scale(a + 1, b, size);
    Scale(b + 1, z, size);
  }

  lemma Scale(a: int, b: int, size: int)
    requires a <= b && size > 0
    ensures a * size <= b * size
    ensures a * size == (a - 1) * size + size
  {
  }

  // --- What one quantum does -----------------------------------------------------------

  datatype Verdict = Silent | End | Underrun | Play(need: int)

  /** Frames left before the end of the stream, at most `quantum`; None once it is over. */
  function Need(eof: int, r: int, quantum: int): Option<int>
  {
    if eof >= 0 then
      var left := ToInt32(eof - r);
      if left <= 0 then None else Some(Min(left, quantum))
    else Some(quantum)
  }

  /** The smallest lead of any writer over the reader. */
  function Avail(writers: seq<int>, r: int): int
  {
    if writers == [] then 0x7fff_ffff
    else Min(Avail(writers[..|writers| - 1], r), ToInt32(writers[|writers| - 1] - r))
  }

  /** What process() decides from the control words. */
  function Decide(state: int, eof: int, r: int, writers: seq<int>, quantum: int): Verdict
  {
    if state != PLAYING then Silent
    else if Need(eof, r, quantum).None? then End
    else if Avail(writers, r) < Need(eof, r, quantum).value then Underrun
    else Play(Need(eof, r, quantum).value)
  }

  class SharedRings {
    const n: nat                                           // ringFrames == 2^n
    const ctrl: array<int>
    const rings: seq<seq<array<real>>>                     // per stem, per channel

    ghost predicate Valid()
    {
      && n <= 30
      && ctrl.Length == CTRL_INT32S
      && 1 <= |rings| <= MAX_STEMS
      && (forall i :: 0 <= i < |rings| ==> 1 <= |rings[i]| <= MAX_CHANNELS)
      && (forall i, c :: 0 <= i < |rings| && 0 <= c < |rings[i]| ==> rings[i][c].Length == Pow2(n))
      && (forall i, c, j, d :: 0 <= i < |rings| && 0 <= c < |rings[i]| && 0 <= j < |rings| && 0 <= d < |rings[j]| ==>
            rings[i][c] != rings[j][d] || (i == j && c == d))
    }

    ghost function Writers(): seq<int>
      requires Valid()
      reads ctrl
    {
      ctrl[WRITE_POS0..WRITE_POS0 + |rings|]
    }

    // --- Main thread --------------------------------------------------------------------

    function Buffered(stem: nat): int
      requires Valid() && stem < |rings|
      reads ctrl
    {
      ToInt32(ctrl[WRITE_POS0 + stem] - ctrl[READ_POS])
    }

    function Space(stem: nat): int
      requires Valid() && stem < |rings|
      reads ctrl
    {
      Pow2(n) - Buffered(stem)
    }

    /** One ring after a block was written at stream position pos. */
    static ghost predicate Written(ring: array<real>, before: seq<real>, src: seq<real>, pos: int)
      reads ring
    {
      && ring.Length == |before| > 0
      && (forall k :: 0 <= k < |src| ==> ring[(pos + k) % |before|] == src[k])
      && (forall s :: 0 <= s < |before| && (s - pos) % |before| >= |src| ==> ring[s] == before[s])
    }

    /** Copies a block into one ring from index `start` on, wrapping once at its end. */
    static method CopyIn(ring: array<real>, src: seq<real>, start: nat)
      requires start < ring.Length && |src| <= ring.Length
      modifies ring
      ensures Written(ring, old(ring[..]), src, start)
    {
      var first := Min(|src|, ring.Length - start);
      for k := 0 to first
        invariant forall s :: 0 <= s < ring.Length ==>
                    ring[s] == if start <= s < start + k then src[s - start] else old(ring[s])
      {
        ring[start + k] := src[k];
      }
      for k := first to |src|
        invariant first <= k
        invariant forall s :: 0 <= s < ring.Length ==>
                    ring[s] == if start <= s < start + first then src[s - start]
                               else if s < k - first then src[first + s] else old(ring[s])
      {
        ring[k - first] := src[k];
      }
      forall k | 0 <= k < |src|
        ensures ring[(start + k) % ring.Length] == src[k]
      {
        WrapOnce(start, k, ring.Length);
      }
      forall s | 0 <= s < ring.Length && (s - start) % ring.Length >= |src|
        ensures ring[s] == old(ring[s])
      {
        WrapBack(start, s, ring.Length);
      }
    }

    /** The ring index of a position stands for the position. */
    static lemma WrittenAt(ring: array<real>, before: seq<real>, src: seq<real>, pos: int)
      requires |before| > 0 && Written(ring, before, src, pos % |before|)
      ensures Written(ring, before, src, pos)
    {
      forall k | 0 <= k < |src|
        ensures ring[(pos + k) % |before|] == src[k]
      {
        SameSlot(pos, k, |before|);
      }
      forall s | 0 <= s < |before| && (s - pos) % |before| >= |src|
        ensures ring[s] == before[s]
      {
        SameDistance(pos, s, |before|);
      }
    }

    static lemma WrapOnce(start: int, k: int, m: int)
      requires 0 <= start < m && 0 <= k <= m
      ensures (start + k) % m == if start + k < m then start + k else start + k - m
    {
      if start + k >= m {
        ModUnique(start + k, m, 1, start + k - m);
      }
    }

    static lemma WrapBack(start: int, s: int, m: int)
      requires 0 <= start < m && 0 <= s < m
      ensures (s - start) % m == if s >= start then s - start else s - start + m
    {
      if s < start {
        ModUnique(s - start, m, -1, s - start + m);
      }
    }

    /** Writes the first `frames` frames of the scratch arrays into every channel of a stem and
        publishes them, or refuses them all. */
    method Write(stem: nat, planar: seq<seq<real>>, frames: nat) returns (ok: bool)
      requires Valid() && stem < |rings|
      requires planar != [] && forall c :: 0 <= c < |planar| ==> frames <= |planar[c]|
      requires 0 <= Buffered(stem) || frames <= Pow2(n)
      modifies ctrl, rings[stem]
      ensures ok == (frames <= old(Space(stem)))
      ensures forall k :: 0 <= k < CTRL_INT32S ==>
                ctrl[k] == if ok && k == WRITE_POS0 + stem then ToInt32(old(ctrl[k]) + frames) else old(ctrl[k])
      ensures forall c :: 0 <= c < |rings[stem]| ==>
                if ok then Written(rings[stem][c], old(rings[stem][c][..]), planar[Min(c, |planar| - 1)][..frames], old(ctrl[WRITE_POS0 + stem]))
                else rings[stem][c][..] == old(rings[stem][c][..])
    {
      if frames > Space(stem) {
        return false;
      }
      var w := ctrl[WRITE_POS0 + stem];
      var start := And(w, Pow2(n) - 1);
      MaskIsMod(w, n);
      CopyAll(rings[stem], planar, frames, start);
      forall c | 0 <= c < |rings[stem]|
        ensures Written(rings[stem][c], old(rings[stem][c][..]), planar[Min(c, |planar| - 1)][..frames], w)
      {
        WrittenAt(rings[stem][c], old(rings[stem][c][..]), planar[Min(c, |planar| - 1)][..frames], w);
      }
      ctrl[WRITE_POS0 + stem] := ToInt32(w + frames);
      ok := true;
    }

    static method CopyAll(channels: seq<array<real>>, planar: seq<seq<real>>, frames: nat, start: nat)
      requires forall c :: 0 <= c < |channels| ==> start < channels[c].Length && frames <= channels[c].Length
      requires forall c, d :: 0 <= c < d < |channels| ==> channels[c] != channels[d]
      requires planar != [] && forall c :: 0 <= c < |planar| ==> frames <= |planar[c]|
      modifies channels
      ensures forall c :: 0 <= c < |channels| ==>
                Written(channels[c], old(channels[c][..]), planar[Min(c, |planar| - 1)][..frames], start)
    {
      for c := 0 to |channels|
        invariant forall d :: 0 <= d < c ==>
                    Written(channels[d], old(channels[d][..]), planar[Min(d, |planar| - 1)][..frames], start)
        invariant forall d :: c <= d < |channels| ==> channels[d][..] == old(channels[d][..])
      {
        CopyIn(channels[c], planar[Min(c, |planar| - 1)][..frames], start);
      }
    }

    static lemma SameSlot(w: int, k: int, m: int)
      requires m > 0
      ensures (w + k) % m == (w % m + k) % m
    {
      ShiftMod(w % m + k, m, 1, w / m);
    }

    static lemma SameDistance(w: int, s: int, m: int)
      requires m > 0
      ensures (s - w) % m == (s - w % m) % m
    {
      var q, rest := w / m, w % m;
      assert w == q * m + rest;
      Negate(q, m);
      ShiftMod(s - rest, m, 1, -q);
    }

    static lemma Negate(q: int, m: int)
      ensures (-q) * (1 * m) == -(q * m)
    {
    }

    method ResetWriters()
      requires Valid()
      modifies ctrl
      ensures forall k :: 0 <= k < CTRL_INT32S ==>
                ctrl[k] == if WRITE_POS0 <= k < WRITE_POS0 + |rings| || k == ENDED then 0
                           else if k == EOF_POS then -1 else old(ctrl[k])
    {
      for i := 0 to |rings|
        invariant forall k :: 0 <= k < CTRL_INT32S ==>
                    ctrl[k] == if WRITE_POS0 <= k < WRITE_POS0 + i then 0 else old(ctrl[k])
      {
        ctrl[WRITE_POS0 + i] := 0;
      }
      ctrl[EOF_POS] := -1;
      ctrl[ENDED] := 0;
    }

    // --- Audio thread ----------------------------------------------------------------------

    /** Where an output channel reads: missing channels repeat the last one. */
    function Source(stem: nat, channel: nat): array<real>
      requires Valid() && stem < |rings|
    {
      rings[stem][if channel < |rings[stem]| then channel else |rings[stem]| - 1]
    }

    static method CopyOut(ring: array<real>, dst: array<real>, r: int, need: nat, n: nat)
      requires ring != dst && ring.Length == Pow2(n) && need <= dst.Length
      modifies dst
      ensures forall k :: 0 <= k < need ==> dst[k] == ring[(r + k) % Pow2(n)]
      ensures forall k :: need <= k < dst.Length ==> dst[k] == old(dst[k])
    {
      for k := 0 to need
        invariant forall j :: 0 <= j < k ==> dst[j] == ring[(r + j) % Pow2(n)]
        invariant forall j :: k <= j < dst.Length ==> dst[j] == old(dst[j])
      {
        MaskIsMod(r + k, n);
        dst[k] := ring[And(r + k, Pow2(n) - 1)];
      }
    }

    /** One output array after a quantum of `need` frames from stream position r. */
    ghost predicate Filled(dst: array<real>, before: seq<real>, ring: array<real>, r: int, need: nat)
      reads dst, ring
    {
      && need <= dst.Length == |before| && ring.Length == Pow2(n)
      && (forall k :: 0 <= k < need ==> dst[k] == ring[(r + k) % Pow2(n)])
      && (forall k :: need <= k < dst.Length ==> dst[k] == before[k])
    }

    method FillStem(stem: nat, out: seq<array<real>>, r: int, need: nat)
      requires Valid() && stem < |rings|
      requires forall c :: 0 <= c < |out| ==> need <= out[c].Length && forall d :: 0 <= d < |rings[stem]| ==> out[c] != rings[stem][d]
      requires forall c, d :: 0 <= c < d < |out| ==> out[c] != out[d]
      modifies out
      ensures forall c :: 0 <= c < |out| ==> Filled(out[c], old(out[c][..]), Source(stem, c), r, need)
    {
      for c := 0 to |out|
        invariant forall d :: 0 <= d < c ==> Filled(out[d], old(out[d][..]), Source(stem, d), r, need)
        invariant forall d :: c <= d < |out| ==> out[d][..] == old(out[d][..])
      {
        CopyOut(Source(stem, c), out[c], r, need, n);
      }
    }

    ghost predicate OutputsApart(outputs: seq<seq<array<real>>>, quantum: nat)
    {
      && (forall i, c :: 0 <= i < |outputs| && 0 <= c < |outputs[i]| ==> outputs[i][c].Length == quantum)
      && (forall i, c, j, d :: 0 <= i < |outputs| && 0 <= c < |outputs[i]| && 0 <= j < |outputs| && 0 <= d < |outputs[j]| ==>
            outputs[i][c] != outputs[j][d] || (i == j && c == d))
      && (forall i, c, j, d :: 0 <= i < |outputs| && 0 <= c < |outputs[i]| && 0 <= j < |rings| && 0 <= d < |rings[j]| ==>
            outputs[i][c] != rings[j][d])
    }

    method FillOutputs(outputs: seq<seq<array<real>>>, r: int, need: nat, quantum: nat)
      requires Valid() && OutputsApart(outputs, quantum) && need <= quantum
      modifies set i, c | 0 <= i < |outputs| && 0 <= c < |outputs[i]| :: outputs[i][c]
      ensures forall i, c :: 0 <= i < |outputs| && 0 <= c < |outputs[i]| ==>
                if i < |rings| then Filled(outputs[i][c], old(outputs[i][c][..]), Source(i, c), r, need)
                else outputs[i][c][..] == old(outputs[i][c][..])
    {
      for i := 0 to |rings|
        invariant forall j, d :: 0 <= j < |outputs| && 0 <= d < |outputs[j]| ==>
                    if j < i then Filled(outputs[j][d], old(outputs[j][d][..]), Source(j, d), r, need)
                    else outputs[j][d][..] == old(outputs[j][d][..])
      {
        if i >= |outputs| {
          continue;
        }
        label Earlier:
        FillStem(i, outputs[i], r, need);
        forall j, d | 0 <= j < |outputs| && 0 <= d < |outputs[j]|
          ensures if j < i + 1 then Filled(outputs[j][d], old(outputs[j][d][..]), Source(j, d), r, need)
                  else outputs[j][d][..] == old(outputs[j][d][..])
        {
          if j != i {
            assert outputs[j][d] !in outputs[i];
            assert outputs[j][d][..] == old@Earlier(outputs[j][d][..]);
          }
        }
      }
    }

    function Quantum(outputs: seq<seq<array<real>>>): nat
    {
      if |outputs| > 0 && |outputs[0]| > 0 then outputs[0][0].Length else 128
    }

    method MinLead(r: int) returns (avail: int)
      requires Valid()
      ensures avail == Avail(Writers(), r)
    {
      avail := 0x7fff_ffff;
      for i := 0 to |rings|
        invariant avail == Avail(Writers()[..i], r)
      {
        ghost var w := Writers()[..i + 1];
        assert w[..|w| - 1] == Writers()[..i] && w[|w| - 1] == ctrl[WRITE_POS0 + i];
        var a := ToInt32(ctrl[WRITE_POS0 + i] - r);
        if a < avail {
          avail := a;
        }
      }
      assert Writers()[..|rings|] == Writers();
    }

    method Process(outputs: seq<seq<array<real>>>) returns (v: Verdict)
      requires Valid() && OutputsApart(outputs, Quantum(outputs))
      modifies ctrl, set i, c | 0 <= i < |outputs| && 0 <= c < |outputs[i]| :: outputs[i][c]
      ensures v == Decide(old(ctrl[STATE]), old(ctrl[EOF_POS]), old(ctrl[READ_POS]), old(Writers()), Quantum(outputs))
      ensures forall k :: 0 <= k < CTRL_INT32S ==>
                ctrl[k] == if v == End && k == ENDED then 1
                           else if v == Underrun && k == UNDERRUNS then ToInt32(old(ctrl[k]) + 1)
                           else if v.Play? && k == READ_POS then ToInt32(old(ctrl[k]) + v.need)
                           else if v.Play? && k == QUANTA then ToInt32(old(ctrl[k]) + 1)
                           else old(ctrl[k])
      ensures v.Play? ==> 0 < v.need <= Quantum(outputs) || Quantum(outputs) == 0
      ensures forall i, c :: 0 <= i < |outputs| && 0 <= c < |outputs[i]| ==>
                if v.Play? && v.need >= 0 && i < |rings|
                then Filled(outputs[i][c], old(outputs[i][c][..]), Source(i, c), old(ctrl[READ_POS]), v.need)
                else outputs[i][c][..] == old(outputs[i][c][..])
    {
      var quantum := Quantum(outputs);
      if ctrl[STATE] != PLAYING {
        return Silent;
      }
      var r := ctrl[READ_POS];
      var eof := ctrl[EOF_POS];
      var need := quantum;
      if eof >= 0 {
        var left := ToInt32(eof - r);
        if left <= 0 {
          ctrl[ENDED] := 1;
          return End;
        }
        if left < need {
          need := left;
        }
      }
      var avail := MinLead(r);
      if avail < need {
        ctrl[UNDERRUNS] := ToInt32(ctrl[UNDERRUNS] + 1);
        return Underrun;
      }
      FillOutputs(outputs, r, need, quantum);
      ctrl[READ_POS] := ToInt32(r + need);
      ctrl[QUANTA] := ToInt32(ctrl[QUANTA] + 1);
      return Play(need);
    }
  }
}
