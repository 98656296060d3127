/** The markup tag flags of chan.content.ChanMarkup: one bit of a Java int each. Only
    their being distinct single bits matters to what is proved about them. */
module ChanMarkup {
  const TAG_BOLD: bv32 := 0x0000_0001
  const TAG_ITALIC: bv32 := 0x0000_0002
  const TAG_UNDERLINE: bv32 := 0x0000_0004
  const TAG_OVERLINE: bv32 := 0x0000_0008
  const TAG_STRIKE: bv32 := 0x0000_0010
  const TAG_SUBSCRIPT: bv32 := 0x0000_0020
  const TAG_SUPERSCRIPT: bv32 := 0x0000_0040
  const TAG_SPOILER: bv32 := 0x0000_0080
  const TAG_QUOTE: bv32 := 0x0000_0100
  const TAG_CODE: bv32 := 0x0000_0200
  const TAG_ASCII_ART: bv32 := 0x0000_0400
  const TAG_HEADING: bv32 := 0x0000_0800
}
