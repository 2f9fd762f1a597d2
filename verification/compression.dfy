/** `compressToSize`: re-encode at falling JPEG quality until the buffer fits
    the target size or the quality reaches the preset's floor. */
module Compression {
  import opened Outcomes
  import opened Oracles

  /** One preset: width bound, target byte size, first and lowest quality. */
  datatype Settings = Settings(maxWidth: int, targetSize: int, initialQuality: int, minQuality: int)

  const High := Settings(2000, 3 * 1024 * 1024, 100, 90)
  const Medium := Settings(1200, 130 * 1024, 85, 70)
  const Low := Settings(800, 20 * 1024, 70, 10)

  /** The resize-then-JPEG pipeline on one decoded source: given the width
      bound and the quality, the encoded bytes or the library's error. */
  type Encoder = (int, int) -> Result<Bytes, Error>

  /** A buffer the loop keeps: small enough, or at or below the floor. */
  predicate Accepts(s: Settings, quality: int, size: int) {
    size <= s.targetSize || quality <= s.minQuality
  }

  /** The loop encoded successfully at `quality` and went on to re-encode. */
  predicate Rejects(s: Settings, enc: Encoder, quality: int) {
    enc(s.maxWidth, quality).Ok? && !Accepts(s, quality, |enc(s.maxWidth, quality).value|)
  }

  /** The buffer the loop keeps, the quality it was encoded at and how many
      encodes it took to get there. */
  datatype Encoded = Encoded(quality: int, buffer: Bytes, encodes: nat)

  /** The search started at `quality`, as a recursive reference: the kept
      buffer is the encoder's output at the kept quality, it is accepted, and
      the qualities fall by exactly 5 per encode. */
  function Search(s: Settings, enc: Encoder, quality: int): (r: Result<Encoded, Error>)
    ensures r.Ok? ==> enc(s.maxWidth, r.value.quality) == Ok(r.value.buffer)
    ensures r.Ok? ==> Accepts(s, r.value.quality, |r.value.buffer|)
    ensures r.Ok? ==> r.value.encodes >= 1 && quality - r.value.quality == 5 * (r.value.encodes - 1)
    decreases quality - s.minQuality
  {
    match enc(s.maxWidth, quality)
    case Err(e) => Err(e)
    case Ok(buffer) =>
      if |buffer| > s.targetSize && quality > s.minQuality then
        match Search(s, enc, quality - 5)
        case Err(e) => Err(e)
        case Ok(rest) => Ok(rest.(encodes := rest.encodes + 1))
      else
        Ok(Encoded(quality, buffer, 1))
  }

  /** Every quality the search tried before the kept one was encoded and
      rejected. */
  lemma {:induction false} SearchRejectsEarlier(s: Settings, enc: Encoder, quality: int)
    requires Search(s, enc, quality).Ok?
    ensures forall q :: Search(s, enc, quality).value.quality < q <= quality && (quality - q) % 5 == 0
                        ==> Rejects(s, enc, q)
    decreases quality - s.minQuality
  {
    var b := enc(s.maxWidth, quality);
    if |b.value| > s.targetSize && quality > s.minQuality {
      SearchRejectsEarlier(s, enc, quality - 5);
      forall q | Search(s, enc, quality).value.quality < q <= quality && (quality - q) % 5 == 0
        ensures Rejects(s, enc, q)
      {
        if q < quality {
          assert (quality - 5 - q) % 5 == 0;
        }
      }
    }
  }

  /** Started at or above the floor, the search never keeps a quality a full
      step below it. */
  lemma {:induction false} SearchAboveStepBelowFloor(s: Settings, enc: Encoder, quality: int)
    requires quality >= s.minQuality
    requires Search(s, enc, quality).Ok?
    ensures Search(s, enc, quality).value.quality > s.minQuality - 5
    decreases quality - s.minQuality
  {
    var b := enc(s.maxWidth, quality);
    if |b.value| > s.targetSize && quality > s.minQuality && quality - 5 >= s.minQuality {
      SearchAboveStepBelowFloor(s, enc, quality - 5);
    }
  }

  /** The same search with `n` more encodes counted in front of it. */
  function After(r: Result<Encoded, Error>, n: nat): Result<Encoded, Error> {
    match r
    case Err(e) => Err(e)
    case Ok(x) => Ok(x.(encodes := x.encodes + n))
  }

  /** The loop of `compressToSize` (the write of the kept buffer is the
      caller's): it ends, and what it keeps is what the search defines. */
  method CompressToSize(s: Settings, enc: Encoder) returns (r: Result<Encoded, Error>)
    ensures r == Search(s, enc, s.initialQuality)
    ensures r.Ok? ==> Accepts(s, r.value.quality, |r.value.buffer|)
    ensures r.Ok? ==> s.initialQuality - r.value.quality == 5 * (r.value.encodes - 1)
  {
    var quality := s.initialQuality;
    var encodes: nat := 0;
    while true
      invariant s.initialQuality - quality == 5 * encodes
      invariant Search(s, enc, s.initialQuality) == After(Search(s, enc, quality), encodes)
      decreases quality - s.minQuality
    {
      var buffer := enc(s.maxWidth, quality);
      if buffer.Err? {
        return Err(buffer.error);
      }
      encodes := encodes + 1;
      if |buffer.value| > s.targetSize && quality > s.minQuality {
        quality := quality - 5;
      } else {
        return Ok(Encoded(quality, buffer.value, encodes));
      }
    }
  }

  /** When the floor is on the 5-step grid from the start, the kept quality
      never drops below the floor, and the encode count is bounded by the
      span. */
  lemma {:induction false} SearchStaysAboveFloor(s: Settings, enc: Encoder, quality: int)
    requires s.minQuality <= quality && (quality - s.minQuality) % 5 == 0
    ensures Search(s, enc, quality).Ok? ==>
              s.minQuality <= Search(s, enc, quality).value.quality <= quality
    ensures Search(s, enc, quality).Ok? ==>
              Search(s, enc, quality).value.encodes <= (quality - s.minQuality) / 5 + 1
    decreases quality - s.minQuality
  {
    var e := enc(s.maxWidth, quality);
    if e.Ok? && |e.value| > s.targetSize && quality > s.minQuality {
      SearchStaysAboveFloor(s, enc, quality - 5);
    }
  }

  /** The three presets: the kept quality lies between the floor and the
      starting quality, after at most 3, 4 and 13 encodes. */
  lemma PresetBounds(enc: Encoder)
    ensures Search(High, enc, 100).Ok? ==>
              90 <= Search(High, enc, 100).value.quality <= 100 && Search(High, enc, 100).value.encodes <= 3
    ensures Search(Medium, enc, 85).Ok? ==>
              70 <= Search(Medium, enc, 85).value.quality <= 85 && Search(Medium, enc, 85).value.encodes <= 4
    ensures Search(Low, enc, 70).Ok? ==>
              10 <= Search(Low, enc, 70).value.quality <= 70 && Search(Low, enc, 70).value.encodes <= 13
  {
    SearchStaysAboveFloor(High, enc, 100);
    SearchStaysAboveFloor(Medium, enc, 85);
    SearchStaysAboveFloor(Low, enc, 70);
  }
}
