/**
 * The bit layout of a list-mode record: the (mask, shift) pairs with which
 * the decoder cuts fields out of the 32-bit header words and out of the
 * fine-timing word.
 */
module Layout {
  import opened Bits

  // First header word.
  const mChannelNumber    := Mask(0xF, 0)
  const mSlotID           := Mask(0xF0, 4)
  const mCrateID          := Mask(0xF00, 8)
  const mHeaderLength     := Mask(0x1F000, 12)
  const mEventLength      := Mask(0x7FFE0000, 17)
  const mFinishCode       := Mask(0x80000000, 31)
  // Second to fourth header words: timestamp, energy, trace length, out-of-range flag.
  const mTimeLow          := Mask(0xFFFFFFFF, 0)
  const mTimeHigh         := Mask(0xFFFF, 0)
  const mEventEnergy      := Mask(0xFFFF, 0)
  const mTraceLength      := Mask(0x7FFF0000, 16)
  const mTraceOutRange    := Mask(0x80000000, 31)
  // The fine-timing (CFD) fields of the third header word, per digitizer frequency.
  const mCFDTime100       := Mask(0x7FFF0000, 16)
  const mCFDTime250       := Mask(0x3FFF0000, 16)
  const mCFDTime500       := Mask(0x1FFF0000, 16)
  const mCFDForce100      := Mask(0x80000000, 31)
  const mCFDForce250      := Mask(0x80000000, 31)
  const mCFDTrigSource250 := Mask(0x40000000, 30)
  const mCFDTrigSource500 := Mask(0xE0000000, 29)
  // Auxiliary words are taken whole.
  const mESumTrailing     := Mask(0xFFFFFFFF, 0)
  const mESumLeading      := Mask(0xFFFFFFFF, 0)
  const mESumGap          := Mask(0xFFFFFFFF, 0)
  const mBaseline         := Mask(0xFFFFFFFF, 0)
  const mQDCSums          := Mask(0xFFFFFFFF, 0)

  /** The six fields of the first header word, still as machine words. */
  datatype HeaderWord = HeaderWord(
    channelNumber: bv32, slotID: bv32, crateID: bv32,
    headerLength: bv32, eventLength: bv32, finishCode: bv32)

  /** Every field fits its mask's width. */
  predicate InRange(h: HeaderWord) {
    && h.channelNumber < 0x10 && h.slotID < 0x10 && h.crateID < 0x10
    && h.headerLength < 0x20 && h.eventLength < 0x4000 && h.finishCode < 2
  }

  function SplitHeader(w: bv32): (h: HeaderWord)
    ensures InRange(h)
  {
    HeaderWord(
      Apply(mChannelNumber, w), Apply(mSlotID, w), Apply(mCrateID, w),
      Apply(mHeaderLength, w), Apply(mEventLength, w), Apply(mFinishCode, w))
  }

  /** The encoder: a header word carrying the given in-range fields; splitting it gives them back. */
  function PackHeader(h: HeaderWord): (w: bv32)
    requires InRange(h)
    ensures SplitHeader(w) == h
  {
    h.channelNumber | (h.slotID << 4) | (h.crateID << 8)
      | (h.headerLength << 12) | (h.eventLength << 17) | (h.finishCode << 31)
  }

  /** The six header masks are pairwise disjoint and together cover all 32 bits. */
  lemma HeaderMasksPartitionWord()
    ensures mChannelNumber.mask & mSlotID.mask == 0 && mChannelNumber.mask & mCrateID.mask == 0
    ensures mChannelNumber.mask & mHeaderLength.mask == 0 && mChannelNumber.mask & mEventLength.mask == 0
    ensures mChannelNumber.mask & mFinishCode.mask == 0
    ensures mSlotID.mask & mCrateID.mask == 0 && mSlotID.mask & mHeaderLength.mask == 0
    ensures mSlotID.mask & mEventLength.mask == 0 && mSlotID.mask & mFinishCode.mask == 0
    ensures mCrateID.mask & mHeaderLength.mask == 0 && mCrateID.mask & mEventLength.mask == 0
    ensures mCrateID.mask & mFinishCode.mask == 0
    ensures mHeaderLength.mask & mEventLength.mask == 0 && mHeaderLength.mask & mFinishCode.mask == 0
    ensures mEventLength.mask & mFinishCode.mask == 0
    ensures mChannelNumber.mask | mSlotID.mask | mCrateID.mask | mHeaderLength.mask
            | mEventLength.mask | mFinishCode.mask == 0xFFFF_FFFF
  {
  }

  /** Because the masks cover the word, splitting loses nothing: packing the fields rebuilds it. */
  lemma SplitHeaderIsLossless(w: bv32)
    ensures PackHeader(SplitHeader(w)) == w
  {
  }

  /** The masks that take a word whole leave it unchanged. */
  lemma WholeWordMasks(w: bv32)
    ensures Apply(mTimeLow, w) == w && Apply(mQDCSums, w) == w
    ensures Apply(mESumTrailing, w) == w && Apply(mESumLeading, w) == w
    ensures Apply(mESumGap, w) == w && Apply(mBaseline, w) == w
  {
  }
}
