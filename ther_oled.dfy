/**
 * Command framing for the 96x39 OLED panel on the I2C bus. Every write is a
 * 2-byte frame: a type selector (0x00 command, 0x40 data) and the byte.
 * The bus is modelled as the sequence of frames written so far.
 */
module Oled {
  import opened Types

  const TYPE_CMD: uint8 := 0x00
  const TYPE_DATA: uint8 := 0x40

  const MAX_COL: nat := 96
  const MAX_PAGE: nat := 5

  // Fixed opcodes.
  const CMD_CONTRAST: uint8 := 0x81
  const CMD_DISPLAY_OFF: uint8 := 0xAE
  const CMD_DISPALY_ON: uint8 := 0xAF
  const CMD_MULTIPLEX_RATIO: uint8 := 0xA8
  const CMD_DISP_CLK_DIV: uint8 := 0xD5
  const CMD_PRECHARGE_PERIOD: uint8 := 0xD9
  const CMD_VCOMH_DESELECT: uint8 := 0xDB
  const CMD_CHARGE_PUMP: uint8 := 0x8D

  /** One HalI2CWrite of BUF_LEN = 2 bytes. */
  datatype Frame = Frame(kind: uint8, value: uint8)

  function Cmd(c: uint8): Frame { Frame(TYPE_CMD, c) }
  function Data(d: uint8): Frame { Frame(TYPE_DATA, d) }

  /** An opcode macro's int result as send_cmd's `unsigned char` parameter receives it. */
  function Truncate(x: nat): (b: uint8)
    ensures x < 0x100 ==> b == x
  {
    x % 0x100
  }

  /** CMD_ENTIRE_DISPLAY(x): ENTIRE_ON (0) gives 0xA4, ENTIRE_OFF (1) gives 0xA5. */
  function EntireDisplayCmd(x: uint8): (c: uint8)
    ensures x < 0x5C ==> c - 0xA4 == x
  {
    Truncate(0xA4 + x)
  }

  /** CMD_DISPLAY_INVERSE(x): INVERSE_OFF (0) gives 0xA6, INVERSE_ON (1) gives 0xA7. */
  function DisplayInverseCmd(x: uint8): (c: uint8)
    ensures x < 0x5A ==> c - 0xA6 == x
  {
    Truncate(0xA6 + x)
  }

  /** CMD_DISP_START_LINE(x), x in [0, 63]. */
  function StartLineCmd(x: uint8): (c: uint8)
    ensures x < 64 ==> 0x40 <= c < 0x80 && c - 0x40 == x
  {
    Truncate(0x40 + x)
  }

  /** CMD_SEGMENT_REMAP(x): REMAP_OFF (0) gives 0xA0, REMAP_ON (1) gives 0xA1. */
  function SegmentRemapCmd(x: uint8): (c: uint8)
    ensures x < 0x60 ==> c - 0xA0 == x
  {
    Truncate(0xA0 + x)
  }

  /** SET_CHARGE_PUMP(x): the argument shifted into bit 2 and up, truncated to a byte. */
  function ChargePumpArg(x: uint8): (c: uint8)
    ensures c % 4 == 0
    ensures x < 0x40 ==> c / 4 == x
  {
    Truncate(x * 4)
  }

  /** CMD_START_PAGE(x): pages 0..4 of the panel give 0xB0..0xB4. */
  function StartPageCmd(x: uint8): (c: uint8)
    ensures x < MAX_PAGE ==> 0xB0 <= c <= 0xB4
    ensures x < 0x50 ==> PageOf(c) == x
  {
    Truncate(0xB0 + x)
  }

  /** The page a page-address command 0xB0..0xFF selects, as the controller reads it. */
  function PageOf(c: uint8): int
  {
    c - 0xB0
  }

  /** CMD_START_COL_LOW(x): the low nibble of the column. */
  function StartColLowCmd(x: uint8): (c: uint8)
    ensures c < 0x10
  {
    Truncate(x % 16)
  }

  /** CMD_START_COL_HIGH(x): 0x10 plus the high nibble of the column. */
  function StartColHighCmd(x: uint8): (c: uint8)
    ensures 0x10 <= c < 0x20
    ensures x < MAX_COL ==> c <= 0x15
  {
    Truncate(0x10 + x / 16)
  }

  /** The column the controller sets from a low-nibble and a high-nibble command. */
  function ColumnOf(lo: uint8, hi: uint8): int
  {
    (hi - 0x10) * 16 + lo
  }

  /** The two column commands carry the column exactly. */
  lemma ColumnRoundTrip(x: uint8)
    ensures ColumnOf(StartColLowCmd(x), StartColHighCmd(x)) == x
  {
  }

  /** Data frames carrying the bytes of d in order. */
  function DataFrames(d: seq<uint8>): (fs: seq<Frame>)
    ensures |fs| == |d|
    decreases |d|
  {
    if d == [] then [] else DataFrames(d[..|d| - 1]) + [Data(d[|d| - 1])]
  }

  /** The data bytes among the frames, in order. */
  function DataBytes(fs: seq<Frame>): seq<uint8>
    decreases |fs|
  {
    if fs == [] then []
    else
      var last := fs[|fs| - 1];
      DataBytes(fs[..|fs| - 1]) + (if last.kind == TYPE_DATA then [last.value] else [])
  }

  /** The command bytes among the frames, in order. */
  function Commands(fs: seq<Frame>): seq<uint8>
    decreases |fs|
  {
    if fs == [] then []
    else
      var last := fs[|fs| - 1];
      Commands(fs[..|fs| - 1]) + (if last.kind == TYPE_CMD then [last.value] else [])
  }

  lemma {:induction false} DataBytesAppend(a: seq<Frame>, b: seq<Frame>)
    ensures DataBytes(a + b) == DataBytes(a) + DataBytes(b)
    ensures Commands(a + b) == Commands(a) + Commands(b)
    decreases |b|
  {
    if b != [] {
      assert (a + b)[..|a + b| - 1] == a + b[..|b| - 1];
      DataBytesAppend(a, b[..|b| - 1]);
    } else {
      assert a + b == a;
    }
  }

  /** DataFrames and DataBytes are inverse; data frames carry no command. */
  lemma {:induction false} DataFramesBytes(d: seq<uint8>)
    ensures DataBytes(DataFrames(d)) == d
    ensures Commands(DataFrames(d)) == []
    decreases |d|
  {
    if d != [] {
      DataFramesBytes(d[..|d| - 1]);
      DataBytesAppend(DataFrames(d[..|d| - 1]), [Data(d[|d| - 1])]);
      assert [Data(d[|d| - 1])][..0] == [];
    }
  }

  /** One more byte of a row is one more data frame. */
  lemma DataFramesSnoc(d: seq<uint8>, lo: nat, hi: nat)
    requires lo <= hi < |d|
    ensures DataFrames(d[lo..hi + 1]) == DataFrames(d[lo..hi]) + [Data(d[hi])]
  {
    assert d[lo..hi + 1][..hi - lo] == d[lo..hi];
  }

  /** Concatenation is associative, in the shape the fill loop needs. */
  lemma AppendAssoc(a: seq<Frame>, b: seq<Frame>, c: seq<Frame>, e: seq<Frame>)
    ensures a + (b + c + e) == a + b + c + e
  {
  }

  /** Number of iterations of `for (i = lo; i <= hi; i++)`. */
  function Count(lo: int, hi: int): nat
  {
    if lo <= hi then hi - lo + 1 else 0
  }

  /** rows * cols, as repeated addition: the bytes that `rows` full rows of `cols` take. */
  function Area(rows: nat, cols: nat): nat
    decreases rows
  {
    if rows == 0 then 0 else Area(rows - 1, cols) + cols
  }

  /** Area is the product. */
  lemma {:induction false} AreaIsProduct(rows: nat, cols: nat)
    ensures Area(rows, cols) == rows * cols
    decreases rows
  {
    if rows > 0 {
      AreaIsProduct(rows - 1, cols);
    }
  }

  /** More rows take at least as many bytes. */
  lemma {:induction false} AreaMono(i: nat, j: nat, cols: nat)
    requires i <= j
    ensures Area(i, cols) <= Area(j, cols)
    decreases j - i
  {
    if i < j {
      AreaMono(i, j - 1, cols);
    }
  }

  /**
   * The frames fill_block writes for pages startPage..lastPage, each page
   * being its page command followed by `cols` data frames taken
   * consecutively from d.
   */
  function BlockFrames(startPage: uint8, lastPage: int, cols: nat, d: seq<uint8>): seq<Frame>
    requires lastPage < 0x100
    requires Area(Count(startPage, lastPage), cols) <= |d|
    decreases lastPage - startPage
  {
    if lastPage < startPage then []
    else
      BlockFrames(startPage, lastPage - 1, cols, d) + [Cmd(StartPageCmd(lastPage))]
        + DataFrames(d[Area(Count(startPage, lastPage - 1), cols)..Area(Count(startPage, lastPage), cols)])
  }

  /** The page commands for pages startPage..lastPage, in order. */
  function PageCommands(startPage: uint8, lastPage: int): (cs: seq<uint8>)
    requires lastPage < 0x100
    ensures |cs| == Count(startPage, lastPage)
    decreases lastPage - startPage
  {
    if lastPage < startPage then [] else PageCommands(startPage, lastPage - 1) + [StartPageCmd(lastPage)]
  }

  /** Page `page` of a block starting at startPage occupies d[Area(n - 1, cols)..Area(n, cols)], n = page - startPage + 1. */
  lemma PageOffsets(startPage: uint8, page: uint8, endPage: uint8, cols: nat)
    requires startPage <= page <= endPage
    ensures Area(Count(startPage, page - 1), cols) + cols == Area(Count(startPage, page), cols)
    ensures Area(Count(startPage, page), cols) <= Area(Count(startPage, endPage), cols)
  {
    AreaMono(Count(startPage, page), Count(startPage, endPage), cols);
  }

  /** One more page extends a block by its page command and its row of data frames. */
  lemma BlockStep(startPage: uint8, page: uint8, cols: nat, d: seq<uint8>)
    requires startPage <= page
    requires Area(Count(startPage, page), cols) <= |d|
    ensures BlockFrames(startPage, page, cols, d) ==
            BlockFrames(startPage, page - 1, cols, d) + [Cmd(StartPageCmd(page))]
              + DataFrames(d[Area(Count(startPage, page - 1), cols)..Area(Count(startPage, page), cols)])
  {
  }

  /** The frames on the bus after one more page of fill_block. */
  lemma PageAppended(start: seq<Frame>, before: seq<Frame>, startPage: uint8, page: uint8, cols: nat, d: seq<uint8>)
    requires startPage <= page
    requires Area(Count(startPage, page), cols) <= |d|
    requires before == start + BlockFrames(startPage, page - 1, cols, d)
    ensures before + [Cmd(StartPageCmd(page))]
              + DataFrames(d[Area(Count(startPage, page - 1), cols)..Area(Count(startPage, page), cols)])
            == start + BlockFrames(startPage, page, cols, d)
  {
    BlockStep(startPage, page, cols, d);
    AppendAssoc(start, BlockFrames(startPage, page - 1, cols, d), [Cmd(StartPageCmd(page))],
                DataFrames(d[Area(Count(startPage, page - 1), cols)..Area(Count(startPage, page), cols)]));
  }

  /** A block is pages x (cols + 1) frames. */
  lemma {:induction false} BlockLength(startPage: uint8, lastPage: int, cols: nat, d: seq<uint8>)
    requires lastPage < 0x100
    requires Area(Count(startPage, lastPage), cols) <= |d|
    ensures |BlockFrames(startPage, lastPage, cols, d)| == Area(Count(startPage, lastPage), cols + 1)
    decreases lastPage - startPage
  {
    if lastPage >= startPage {
      AreaMono(Count(startPage, lastPage - 1), Count(startPage, lastPage), cols);
      BlockLength(startPage, lastPage - 1, cols, d);
    }
  }

  /** The command bytes of a block are exactly its page commands: no column command. */
  lemma {:induction false} BlockCommands(startPage: uint8, lastPage: int, cols: nat, d: seq<uint8>)
    requires lastPage < 0x100
    requires Area(Count(startPage, lastPage), cols) <= |d|
    ensures Commands(BlockFrames(startPage, lastPage, cols, d)) == PageCommands(startPage, lastPage)
    decreases lastPage - startPage
  {
    if lastPage >= startPage {
      var lo := Area(Count(startPage, lastPage - 1), cols);
      var hi := Area(Count(startPage, lastPage), cols);
      AreaMono(Count(startPage, lastPage - 1), Count(startPage, lastPage), cols);
      BlockCommands(startPage, lastPage - 1, cols, d);
      AppendRowCommands(BlockFrames(startPage, lastPage - 1, cols, d), StartPageCmd(lastPage), d[lo..hi]);
    }
  }

  /** Appending a page command and one row of data frames adds the row to the data bytes... */
  lemma AppendRowData(prev: seq<Frame>, c: uint8, d: seq<uint8>, lo: nat, hi: nat)
    requires lo <= hi <= |d|
    requires DataBytes(prev) == d[..lo]
    ensures DataBytes(prev + [Cmd(c)] + DataFrames(d[lo..hi])) == d[..hi]
  {
    var page := [Cmd(c)];
    var row := d[lo..hi];
    assert DataBytes(page) == [] by { assert page[..0] == []; }
    DataBytesAppend(prev, page);
    assert DataBytes(prev + page) == d[..lo];
    DataFramesBytes(row);
    DataBytesAppend(prev + page, DataFrames(row));
    assert DataBytes(prev + page + DataFrames(row)) == d[..lo] + row;
    assert d[..lo] + row == d[..hi];
  }

  /** ... and only the page command to the command bytes. */
  lemma AppendRowCommands(prev: seq<Frame>, c: uint8, row: seq<uint8>)
    ensures Commands(prev + [Cmd(c)] + DataFrames(row)) == Commands(prev) + [c]
  {
    var page := [Cmd(c)];
    DataFramesBytes(row);
    DataBytesAppend(prev, page);
    DataBytesAppend(prev + page, DataFrames(row));
    assert page[..0] == [];
  }

  /** The data bytes of a block are the first pages x cols bytes of the buffer, in order. */
  lemma {:induction false} BlockData(startPage: uint8, lastPage: int, cols: nat, d: seq<uint8>)
    requires lastPage < 0x100
    requires Area(Count(startPage, lastPage), cols) <= |d|
    ensures DataBytes(BlockFrames(startPage, lastPage, cols, d)) == d[..Area(Count(startPage, lastPage), cols)]
    decreases lastPage - startPage
  {
    if lastPage >= startPage {
      var lo := Area(Count(startPage, lastPage - 1), cols);
      var hi := Area(Count(startPage, lastPage), cols);
      AreaMono(Count(startPage, lastPage - 1), Count(startPage, lastPage), cols);
      BlockData(startPage, lastPage - 1, cols, d);
      AppendRowData(BlockFrames(startPage, lastPage - 1, cols, d), StartPageCmd(lastPage), d, lo, hi);
    }
  }

  /** The I2C bus to the panel. */
  class Panel {
    var bus: seq<Frame>

    constructor ()
      ensures bus == []
    {
      bus := [];
    }

    /** send_cmd: one command frame. */
    method SendCmd(c: uint8)
      modifies this
      ensures bus == old(bus) + [Frame(0x00, c)]
    {
      bus := bus + [Cmd(c)];
    }

    /** send_data: one data frame. */
    method SendData(d: uint8)
      modifies this
      ensures bus == old(bus) + [Frame(0x40, d)]
    {
      bus := bus + [Data(d)];
    }

    /** set_contrast: opcode 0x81 then the contrast step. */
    method SetContrast(steps: uint8)
      modifies this
      ensures bus == old(bus) + [Cmd(CMD_CONTRAST), Cmd(steps)]
    {
      SendCmd(CMD_CONTRAST);
      SendCmd(steps);
    }

    /** set_entire_display_on */
    method SetEntireDisplayOn(val: uint8)
      modifies this
      ensures bus == old(bus) + [Cmd(EntireDisplayCmd(val))]
    {
      SendCmd(EntireDisplayCmd(val));
    }

    /** set_display: normal (0) or inverse (1) video. */
    method SetDisplay(val: uint8)
      modifies this
      ensures bus == old(bus) + [Cmd(DisplayInverseCmd(val))]
    {
      SendCmd(DisplayInverseCmd(val));
    }

    /** set_display_on */
    method SetDisplayOn()
      modifies this
      ensures bus == old(bus) + [Cmd(0xAF)]
    {
      SendCmd(CMD_DISPALY_ON);
    }

    /** set_display_off */
    method SetDisplayOff()
      modifies this
      ensures bus == old(bus) + [Cmd(0xAE)]
    {
      SendCmd(CMD_DISPLAY_OFF);
    }

    /** set_start_page: a single page-address command. */
    method SetStartPage(startPage: uint8)
      modifies this
      ensures bus == old(bus) + [Cmd(StartPageCmd(startPage))]
      ensures startPage < MAX_PAGE ==> 0xB0 <= bus[|bus| - 1].value <= 0xB4
    {
      SendCmd(StartPageCmd(startPage));
    }

    /** set_start_column: low-nibble command, then high-nibble command. */
    method SetStartColumn(startColumn: uint8)
      modifies this
      ensures bus == old(bus) + [Cmd(StartColLowCmd(startColumn)), Cmd(StartColHighCmd(startColumn))]
      ensures ColumnOf(bus[|bus| - 2].value, bus[|bus| - 1].value) == startColumn
    {
      SendCmd(StartColLowCmd(startColumn));
      SendCmd(StartColHighCmd(startColumn));
      ColumnRoundTrip(startColumn);
    }

    /** set_start_line */
    method SetStartLine(line: uint8)
      modifies this
      ensures bus == old(bus) + [Cmd(StartLineCmd(line))]
    {
      SendCmd(StartLineCmd(line));
    }

    /** set_segment_remap */
    method SetSegmentRemap(val: uint8)
      modifies this
      ensures bus == old(bus) + [Cmd(SegmentRemapCmd(val))]
    {
      SendCmd(SegmentRemapCmd(val));
    }

    /** set_multiplex_ratio: opcode 0xA8 then the ratio. */
    method SetMultiplexRatio(ratio: uint8)
      modifies this
      ensures bus == old(bus) + [Cmd(CMD_MULTIPLEX_RATIO), Cmd(ratio)]
    {
      SendCmd(CMD_MULTIPLEX_RATIO);
      SendCmd(ratio);
    }

    /** set_display_clock: opcode 0xD5 then divider and oscillator frequency. */
    method SetDisplayClock(clkDiv: uint8)
      modifies this
      ensures bus == old(bus) + [Cmd(CMD_DISP_CLK_DIV), Cmd(clkDiv)]
    {
      SendCmd(CMD_DISP_CLK_DIV);
      SendCmd(clkDiv);
    }

    /** set_precharge_period: opcode 0xD9 then the two phase periods. */
    method SetPrechargePeriod(val: uint8)
      modifies this
      ensures bus == old(bus) + [Cmd(CMD_PRECHARGE_PERIOD), Cmd(val)]
    {
      SendCmd(CMD_PRECHARGE_PERIOD);
      SendCmd(val);
    }

    /**
     * set_vcomh_deselect: opcode 0xDB then the level. The parameter is an
     * `unsigned` (16 bits on this target) that send_cmd truncates to a byte.
     */
    method SetVcomhDeselect(val: uint16)
      modifies this
      ensures bus == old(bus) + [Cmd(CMD_VCOMH_DESELECT), Cmd(val % 0x100)]
    {
      SendCmd(CMD_VCOMH_DESELECT);
      SendCmd(Truncate(val));
    }

    /** set_charge_pump: opcode 0x8D then `val << 2`. */
    method SetChargePump(val: uint8)
      modifies this
      ensures bus == old(bus) + [Cmd(CMD_CHARGE_PUMP), Cmd(ChargePumpArg(val))]
    {
      SendCmd(CMD_CHARGE_PUMP);
      SendCmd(ChargePumpArg(val));
    }

    /**
     * The inner loop of fill_block: one data frame per column from startCol
     * to endCol, taking the bytes from data[k0] on; returns the next index.
     */
    method SendRow(data: seq<uint8>, k0: nat, startCol: uint8, endCol: uint8) returns (k: nat)
      requires startCol <= endCol ==> endCol < 0xFF
      requires k0 + Count(startCol, endCol) <= |data|
      modifies this
      ensures k == k0 + Count(startCol, endCol)
      ensures bus == old(bus) + DataFrames(data[k0..k])
    {
      ghost var prefix := bus;
      k := k0;
      var col := startCol;
      while col <= endCol
        invariant startCol <= col && (startCol <= endCol ==> col <= endCol + 1)
        invariant startCol > endCol ==> col == startCol
        invariant k == k0 + (col - startCol)
        invariant bus == prefix + DataFrames(data[k0..k])
        decreases endCol - col
      {
        DataFramesSnoc(data, k0, k);
        SendData(data[k]);
        k := k + 1;
        col := col + 1;
      }
    }

    /**
     * One pass of fill_block's outer loop: the page command for `page`, then
     * its row of data frames from data[k0] on.
     */
    method FillPage(startPage: uint8, page: uint8, endPage: uint8, startCol: uint8, endCol: uint8,
                    data: seq<uint8>, k0: nat, ghost start: seq<Frame>) returns (k: nat)
      requires startPage <= page <= endPage && endCol < 0xFF
      requires Area(Count(startPage, endPage), Count(startCol, endCol)) <= |data|
      requires k0 == Area(Count(startPage, page - 1), Count(startCol, endCol))
      requires k0 <= Area(Count(startPage, endPage), Count(startCol, endCol))
      requires bus == start + BlockFrames(startPage, page - 1, Count(startCol, endCol), data)
      modifies this
      ensures k == Area(Count(startPage, page), Count(startCol, endCol))
      ensures k <= Area(Count(startPage, endPage), Count(startCol, endCol))
      ensures bus == start + BlockFrames(startPage, page, Count(startCol, endCol), data)
    {
      ghost var cols := Count(startCol, endCol);
      PageOffsets(startPage, page, endPage, cols);
      ghost var before := bus;
      SetStartPage(page);
      k := SendRow(data, k0, startCol, endCol);
      PageAppended(start, before, startPage, page, cols, data);
    }

    /**
     * fill_block: for each page from startPage to endPage, the page command
     * and then one data frame per column from startCol to endCol, taking
     * the data bytes consecutively. The `unsigned char` loop counters are
     * compared with `<=`, so a loop whose bound is 255 never ends.
     */
    method FillBlock(startPage: uint8, endPage: uint8, startCol: uint8, endCol: uint8, data: seq<uint8>)
      requires endPage < 0xFF
      requires startPage <= endPage ==> endCol < 0xFF
      requires Area(Count(startPage, endPage), Count(startCol, endCol)) <= |data|
      modifies this
      ensures bus == old(bus) + BlockFrames(startPage, endPage, Count(startCol, endCol), data)
    {
      ghost var start := bus;
      var k := 0;
      var page := startPage;
      while page <= endPage
        invariant startPage <= page && (startPage <= endPage ==> page <= endPage + 1)
        invariant startPage > endPage ==> page == startPage
        invariant k == Area(Count(startPage, page - 1), Count(startCol, endCol))
        invariant k <= Area(Count(startPage, endPage), Count(startCol, endCol))
        invariant bus == start + BlockFrames(startPage, page - 1, Count(startCol, endCol), data)
        decreases endPage - page
      {
        k := FillPage(startPage, page, endPage, startCol, endCol, data, k, start);
        page := page + 1;
      }
    }
  }
}
