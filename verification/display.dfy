/**
  The e-paper driver of src/display.rs, seen from the SPI bus: every
  write is one byte, sent with the data/command (DC) line low for a
  command and high for data. The bus is an append-only log of
  (DC level, byte) pairs; the reset pin, the busy pin and the sleeps are
  not modelled.
*/
module Display {
  import opened Errors
  import Drawing

  const PANEL_SETTING: bv8 := 0x00
  const POWER_SETTING: bv8 := 0x01
  const POWER_ON: bv8 := 0x04
  const BOOSTER_SOFT_START: bv8 := 0x06
  const DATA_START_TRANSMISSION: bv8 := 0x10
  const DISPLAY_REFRESH: bv8 := 0x12
  const PLL_CONTROL: bv8 := 0x30
  const TEMPERATURE_CALIBRATION: bv8 := 0x41
  const VCOM_AND_DATA_INTERVAL_SETTING: bv8 := 0x50
  const TCON_SETTING: bv8 := 0x60
  const TCON_RESOLUTION: bv8 := 0x61
  const VCM_DC_SETTING: bv8 := 0x82
  const FLASH_MODE: bv8 := 0xe5

  /** A write with the DC line low. */
  function Command(b: bv8): (bool, bv8) { (false, b) }

  /** A write with the DC line high. */
  function Data(b: bv8): (bool, bv8) { (true, b) }

  /** The writes of `init_display`, register by register. */
  const INIT_POWER_SETTING: seq<(bool, bv8)> := [Command(POWER_SETTING), Data(0x37), Data(0x00)]
  const INIT_PANEL_SETTING: seq<(bool, bv8)> := [Command(PANEL_SETTING), Data(0xCF), Data(0x08)]
  const INIT_BOOSTER_SOFT_START: seq<(bool, bv8)> := [Command(BOOSTER_SOFT_START), Data(0xc7), Data(0xcc), Data(0x28)]
  const INIT_POWER_ON: seq<(bool, bv8)> := [Command(POWER_ON)]
  const INIT_PLL_CONTROL: seq<(bool, bv8)> := [Command(PLL_CONTROL), Data(0x3c)]
  const INIT_TEMPERATURE_CALIBRATION: seq<(bool, bv8)> := [Command(TEMPERATURE_CALIBRATION), Data(0x00)]
  const INIT_VCOM_AND_DATA_INTERVAL: seq<(bool, bv8)> := [Command(VCOM_AND_DATA_INTERVAL_SETTING), Data(0x77)]
  const INIT_TCON_SETTING: seq<(bool, bv8)> := [Command(TCON_SETTING), Data(0x22)]
  const INIT_TCON_RESOLUTION: seq<(bool, bv8)> := [Command(TCON_RESOLUTION), Data(0x02), Data(0x80), Data(0x01), Data(0x80)]
  const INIT_VCM_DC_SETTING: seq<(bool, bv8)> := [Command(VCM_DC_SETTING), Data(0x1E)]
  const INIT_FLASH_MODE: seq<(bool, bv8)> := [Command(FLASH_MODE), Data(0x03)]

  /** Every write of `init_display` before the last one. */
  const INIT_SETUP: seq<(bool, bv8)> :=
    INIT_POWER_SETTING + INIT_PANEL_SETTING + INIT_BOOSTER_SOFT_START + INIT_POWER_ON + INIT_PLL_CONTROL
    + INIT_TEMPERATURE_CALIBRATION + INIT_VCOM_AND_DATA_INTERVAL + INIT_TCON_SETTING + INIT_TCON_RESOLUTION
    + INIT_VCM_DC_SETTING + INIT_FLASH_MODE

  /** The writes of `init_display`, in order. */
  const INIT_SEQUENCE: seq<(bool, bv8)> := INIT_SETUP + [Command(DATA_START_TRANSMISSION)]

  /** The initialisation ends by opening the pixel data transmission, and opens it nowhere earlier. */
  lemma InitEndsWithDataStart()
    ensures INIT_SEQUENCE[|INIT_SEQUENCE| - 1] == Command(DATA_START_TRANSMISSION)
    ensures Command(DATA_START_TRANSMISSION) !in INIT_SEQUENCE[..|INIT_SEQUENCE| - 1]
  {
    assert INIT_SEQUENCE[..|INIT_SEQUENCE| - 1] == INIT_SETUP;
  }

  /** The big-endian 16-bit value of two bytes. */
  function Word(hi: bv8, lo: bv8): int { hi as int * 256 + lo as int }

  /** The four data bytes after `TCON_RESOLUTION` are the panel's width and height, 640 and 384. */
  lemma ResolutionMatchesPanel()
    ensures INIT_TCON_RESOLUTION[0] == Command(TCON_RESOLUTION)
    ensures forall i :: 1 <= i < |INIT_TCON_RESOLUTION| ==> INIT_TCON_RESOLUTION[i].0
    ensures Word(INIT_TCON_RESOLUTION[1].1, INIT_TCON_RESOLUTION[2].1) == Drawing.EPD_WIDTH
    ensures Word(INIT_TCON_RESOLUTION[3].1, INIT_TCON_RESOLUTION[4].1) == Drawing.EPD_HEIGHT
  {
  }

  /** Gray 0..255 to one of four levels: below 64, up to 128, up to 192, above. */
  function Quantise(color: bv8): (level: bv8)
    ensures level <= 3
    ensures level == 0 <==> color < 64
    ensures level == 1 <==> 64 <= color <= 128
    ensures level == 2 <==> 128 < color <= 192
    ensures level == 3 <==> color > 192
  {
    if color < 64 then 0 else if color <= 128 then 1 else if color <= 192 then 2 else 3
  }

  /** Darker never quantises to a higher level. */
  lemma QuantiseMonotone(a: bv8, b: bv8)
    requires a <= b
    ensures Quantise(a) <= Quantise(b)
  {
  }

  /** The byte for two neighbouring pixels: the left one in the high nibble, the right one in the low nibble. */
  function PackByte(left: bv8, right: bv8): bv8 {
    (Quantise(left) << 4) | Quantise(right)
  }

  /** Both levels can be read back from the packed byte. */
  lemma UnpackByte(left: bv8, right: bv8)
    ensures PackByte(left, right) >> 4 == Quantise(left)
    ensures PackByte(left, right) & 0x0F == Quantise(right)
  {
  }

  /** The byte of pixels 2k and 2k + 1 of a row. */
  function PairByte(row: seq<bv8>, k: nat): bv8
    requires 2 * k + 1 < |row|
  {
    PackByte(row[2 * k], row[2 * k + 1])
  }

  /** The bytes of one row: one per pair of pixels, a last unpaired pixel dropped. */
  function PackedRow(row: seq<bv8>): (r: seq<bv8>)
    ensures |r| == |row| / 2
    ensures forall k :: 0 <= k < |r| ==> r[k] == PairByte(row, k)
  {
    seq(|row| / 2, k requires 0 <= k < |row| / 2 => PairByte(row, k))
  }

  /** The bytes of an image, row after row. */
  function Packed(rows: seq<seq<bv8>>): seq<bv8> {
    if rows == [] then [] else Packed(rows[..|rows| - 1]) + PackedRow(rows[|rows| - 1])
  }

  /** The bus writes of a run of data bytes. */
  function DataWrites(bytes: seq<bv8>): (w: seq<(bool, bv8)>)
    ensures |w| == |bytes|
    ensures forall i :: 0 <= i < |w| ==> w[i] == Data(bytes[i])
  {
    seq(|bytes|, i requires 0 <= i < |bytes| => Data(bytes[i]))
  }

  lemma DataWritesAppend(a: seq<bv8>, b: seq<bv8>)
    ensures DataWrites(a + b) == DataWrites(a) + DataWrites(b)
  {
    assert forall i :: 0 <= i < |a + b| ==> DataWrites(a + b)[i] == (DataWrites(a) + DataWrites(b))[i];
  }

  /** A log holding the writes of some bytes, then the writes of more bytes. */
  lemma LogAppend(log: seq<(bool, bv8)>, a: seq<bv8>, b: seq<bv8>)
    ensures log + DataWrites(a + b) == log + DataWrites(a) + DataWrites(b)
  {
    DataWritesAppend(a, b);
  }

  /** A log holding the writes of some bytes, then the write of one more. */
  lemma LogSnoc(log: seq<(bool, bv8)>, a: seq<bv8>, b: bv8)
    ensures log + DataWrites(a + [b]) == log + DataWrites(a) + [Data(b)]
  {
    DataWritesAppend(a, [b]);
    assert DataWrites([b]) == [Data(b)];
  }

  /** An even column only starts a byte: the bytes so far do not change. */
  lemma PackedRowEven(row: seq<bv8>, x: nat)
    requires x < |row| && x % 2 == 0
    ensures PackedRow(row[..x + 1]) == PackedRow(row[..x])
  {
    assert forall k :: 0 <= k < x / 2 ==> row[..x + 1][2 * k] == row[..x][2 * k] && row[..x + 1][2 * k + 1] == row[..x][2 * k + 1];
  }

  /** An odd column completes the byte of itself and its left neighbour. */
  lemma PackedRowOdd(row: seq<bv8>, x: nat)
    requires x < |row| && x % 2 == 1
    ensures PackedRow(row[..x + 1]) == PackedRow(row[..x]) + [PackByte(row[x - 1], row[x])]
  {
    var a, b := PackedRow(row[..x + 1]), PackedRow(row[..x]) + [PackByte(row[x - 1], row[x])];
    forall k | 0 <= k < |a| ensures a[k] == b[k] {
      if k < x / 2 {
        assert row[..x + 1][2 * k] == row[..x][2 * k] && row[..x + 1][2 * k + 1] == row[..x][2 * k + 1];
      }
    }
  }

  /** The byte the source builds with its `if` chains: the level of an odd pixel or-ed into the low nibble. */
  lemma OrLowNibble(left: bv8, right: bv8, low: bv8)
    requires low == (if right < 64 then 0x00 else if right <= 128 then 0x01 else if right <= 192 then 0x02 else 0x03)
    ensures (Quantise(left) << 4) | low == PackByte(left, right)
  {
  }

  /** All rows have the image's width. */
  predicate Rectangular(rows: seq<seq<bv8>>, width: nat) {
    forall y :: 0 <= y < |rows| ==> |rows[y]| == width
  }

  lemma RectangularPrefix(rows: seq<seq<bv8>>, width: nat, n: nat)
    requires Rectangular(rows, width) && n <= |rows|
    ensures Rectangular(rows[..n], width)
  {
    forall y | 0 <= y < n ensures |rows[..n][y]| == width { assert rows[..n][y] == rows[y]; }
  }

  /** An image of height h and width w gives h * (w / 2) bytes. */
  lemma {:induction false} PackedLength(rows: seq<seq<bv8>>, width: nat)
    requires Rectangular(rows, width)
    ensures |Packed(rows)| == |rows| * (width / 2)
  {
    if rows != [] {
      var n := |rows|;
      RectangularPrefix(rows, width, n - 1);
      PackedLength(rows[..n - 1], width);
      assert (n - 1) * (width / 2) + width / 2 == n * (width / 2);
    }
  }

  /**
    Row-major order: the byte at y * (w / 2) + k of an image of width w
    packs pixels 2k and 2k + 1 of row y.
  */
  lemma {:induction false} PackedAt(rows: seq<seq<bv8>>, width: nat, y: int, k: int)
    requires Rectangular(rows, width)
    requires 0 <= y < |rows| && 0 <= k < width / 2
    ensures y * (width / 2) + k < |Packed(rows)|
    ensures Packed(rows)[y * (width / 2) + k] == PairByte(rows[y], k)
  {
    var n, h := |rows|, width / 2;
    var init := rows[..n - 1];
    RectangularPrefix(rows, width, n - 1);
    PackedLength(init, width);
    PackedLength(rows, width);
    if y < n - 1 {
      PackedAt(init, width, y, k);
      assert init[y] == rows[y];
    } else {
      assert y * h + k == |Packed(init)| + k;
    }
  }

  /** With an even width every pixel is sent: width * height / 2 bytes. */
  lemma EvenWidthSendsAll(rows: seq<seq<bv8>>, width: nat)
    requires Rectangular(rows, width) && width % 2 == 0
    ensures 2 * |Packed(rows)| == |rows| * width
  {
    PackedLength(rows, width);
    assert 2 * (|rows| * (width / 2)) == |rows| * (2 * (width / 2));
  }

  /** With an odd width the last pixel of a row never reaches the panel: changing it changes no byte. */
  lemma OddWidthDropsLastPixel(row: seq<bv8>, other: bv8)
    requires |row| % 2 == 1
    ensures PackedRow(row[|row| - 1 := other]) == PackedRow(row)
  {
    var changed := row[|row| - 1 := other];
    forall k | 0 <= k < |row| / 2 ensures PackedRow(changed)[k] == PackedRow(row)[k] {
      assert 2 * k + 1 < |row| - 1;
    }
  }

  lemma Appended2<T>(s: seq<T>, a: T, b: T)
    ensures s + [a] + [b] == s + [a, b]
  {
  }

  lemma Appended3<T>(s: seq<T>, a: T, b: T, c: T)
    ensures s + [a] + [b] + [c] == s + [a, b, c]
  {
  }

  lemma Appended4<T>(s: seq<T>, a: T, b: T, c: T, d: T)
    ensures s + [a] + [b] + [c] + [d] == s + [a, b, c, d]
  {
  }

  lemma Appended5<T>(s: seq<T>, a: T, b: T, c: T, d: T, e: T)
    ensures s + [a] + [b] + [c] + [d] + [e] == s + [a, b, c, d, e]
  {
  }

  lemma AppendAssoc<T>(a: seq<T>, b: seq<T>, c: seq<T>)
    ensures a + (b + c) == a + b + c
  {
  }

  /** Appending the whole initialisation is appending it register by register. */
  lemma InitInGroups(s: seq<(bool, bv8)>)
    ensures s + INIT_SEQUENCE ==
            s + INIT_POWER_SETTING + INIT_PANEL_SETTING + INIT_BOOSTER_SOFT_START + INIT_POWER_ON + INIT_PLL_CONTROL
            + INIT_TEMPERATURE_CALIBRATION + INIT_VCOM_AND_DATA_INTERVAL + INIT_TCON_SETTING + INIT_TCON_RESOLUTION
            + INIT_VCM_DC_SETTING + INIT_FLASH_MODE + [Command(DATA_START_TRANSMISSION)]
  {
    var g := [INIT_POWER_SETTING, INIT_PANEL_SETTING, INIT_BOOSTER_SOFT_START, INIT_POWER_ON, INIT_PLL_CONTROL,
              INIT_TEMPERATURE_CALIBRATION, INIT_VCOM_AND_DATA_INTERVAL, INIT_TCON_SETTING, INIT_TCON_RESOLUTION,
              INIT_VCM_DC_SETTING, INIT_FLASH_MODE, [Command(DATA_START_TRANSMISSION)]];
    AppendAssoc(s, g[0] + g[1] + g[2] + g[3] + g[4] + g[5] + g[6] + g[7] + g[8] + g[9] + g[10], g[11]);
    AppendAssoc(s, g[0] + g[1] + g[2] + g[3] + g[4] + g[5] + g[6] + g[7] + g[8] + g[9], g[10]);
    AppendAssoc(s, g[0] + g[1] + g[2] + g[3] + g[4] + g[5] + g[6] + g[7] + g[8], g[9]);
    AppendAssoc(s, g[0] + g[1] + g[2] + g[3] + g[4] + g[5] + g[6] + g[7], g[8]);
    AppendAssoc(s, g[0] + g[1] + g[2] + g[3] + g[4] + g[5] + g[6], g[7]);
    AppendAssoc(s, g[0] + g[1] + g[2] + g[3] + g[4] + g[5], g[6]);
    AppendAssoc(s, g[0] + g[1] + g[2] + g[3] + g[4], g[5]);
    AppendAssoc(s, g[0] + g[1] + g[2] + g[3], g[4]);
    AppendAssoc(s, g[0] + g[1] + g[2], g[3]);
    AppendAssoc(s, g[0] + g[1], g[2]);
    AppendAssoc(s, g[0], g[1]);
  }

  /** The panel's bus: the DC line and every write made so far. */
  class EPaper {
    var dcHigh: bool
    var log: seq<(bool, bv8)>

    constructor ()
      ensures !dcHigh && log == []
    {
      dcHigh := false;
      log := [];
    }

    /** `send_command`: DC low, then one byte. */
    method SendCommand(command: bv8)
      modifies this
      ensures !dcHigh
      ensures log == old(log) + [Command(command)]
    {
      dcHigh := false;
      log := log + [(dcHigh, command)];
    }

    /** `send_data`: DC high, then one byte. */
    method SendData(data: bv8)
      modifies this
      ensures dcHigh
      ensures log == old(log) + [Data(data)]
    {
      dcHigh := true;
      log := log + [(dcHigh, data)];
    }

    /** `init_display`, after the reset pulse. */
    method InitDisplay()
      modifies this
      ensures !dcHigh
      ensures log == old(log) + INIT_SEQUENCE
    {
      ghost var start := log;
      ghost var mark := log;
      SendCommand(POWER_SETTING);
      SendData(0x37);
      SendData(0x00);
      Appended3(mark, Command(POWER_SETTING), Data(0x37), Data(0x00));

      mark := log;
      SendCommand(PANEL_SETTING);
      SendData(0xCF);
      SendData(0x08);
      Appended3(mark, Command(PANEL_SETTING), Data(0xCF), Data(0x08));

      mark := log;
      SendCommand(BOOSTER_SOFT_START);
      SendData(0xc7);
      SendData(0xcc);
      SendData(0x28);
      Appended4(mark, Command(BOOSTER_SOFT_START), Data(0xc7), Data(0xcc), Data(0x28));

      SendCommand(POWER_ON);

      mark := log;
      SendCommand(PLL_CONTROL);
      SendData(0x3c);
      Appended2(mark, Command(PLL_CONTROL), Data(0x3c));

      mark := log;
      SendCommand(TEMPERATURE_CALIBRATION);
      SendData(0x00);
      Appended2(mark, Command(TEMPERATURE_CALIBRATION), Data(0x00));

      mark := log;
      SendCommand(VCOM_AND_DATA_INTERVAL_SETTING);
      SendData(0x77);
      Appended2(mark, Command(VCOM_AND_DATA_INTERVAL_SETTING), Data(0x77));

      mark := log;
      SendCommand(TCON_SETTING);
      SendData(0x22);
      Appended2(mark, Command(TCON_SETTING), Data(0x22));

      mark := log;
      SendCommand(TCON_RESOLUTION);
      SendData(0x02);
      SendData(0x80);
      SendData(0x01);
      SendData(0x80);
      Appended5(mark, Command(TCON_RESOLUTION), Data(0x02), Data(0x80), Data(0x01), Data(0x80));

      mark := log;
      SendCommand(VCM_DC_SETTING);
      SendData(0x1E);
      Appended2(mark, Command(VCM_DC_SETTING), Data(0x1E));

      mark := log;
      SendCommand(FLASH_MODE);
      SendData(0x03);
      Appended2(mark, Command(FLASH_MODE), Data(0x03));

      SendCommand(DATA_START_TRANSMISSION);
      InitInGroups(start);
    }

    /**
      `display_image`: the pixels row by row, a byte sent after every
      odd column, then `DISPLAY_REFRESH`.
    */
    method DisplayImage(rows: seq<seq<bv8>>, width: nat)
      requires Rectangular(rows, width)
      modifies this
      ensures !dcHigh
      ensures log == old(log) + DataWrites(Packed(rows)) + [Command(DISPLAY_REFRESH)]
    {
      var pixelInProgress: bv8 := 0;
      for y := 0 to |rows|
        invariant log == old(log) + DataWrites(Packed(rows[..y]))
      {
        assert rows[..y + 1][..y] == rows[..y];
        var row := rows[y];
        ghost var rowStart := log;
        assert DataWrites(PackedRow(row[..0])) == [];
        for x := 0 to width
          invariant log == rowStart + DataWrites(PackedRow(row[..x]))
          invariant x % 2 == 1 ==> pixelInProgress == Quantise(row[x - 1]) << 4
          invariant |log| == |rowStart| + x / 2
        {
          var color := row[x];
          if x % 2 == 0 {
            if color < 64 {
              pixelInProgress := 0x00;
            } else if color <= 128 {
              pixelInProgress := 0x10;
            } else if color <= 192 {
              pixelInProgress := 0x20;
            } else {
              pixelInProgress := 0x30;
            }
            PackedRowEven(row, x);
            assert log == rowStart + DataWrites(PackedRow(row[..x + 1]));
          } else {
            ghost var high := pixelInProgress;
            ghost var low: bv8 := if color < 64 then 0x00 else if color <= 128 then 0x01 else if color <= 192 then 0x02 else 0x03;
            if color < 64 {
              pixelInProgress := pixelInProgress | 0x00;
            } else if color <= 128 {
              pixelInProgress := pixelInProgress | 0x01;
            } else if color <= 192 {
              pixelInProgress := pixelInProgress | 0x02;
            } else {
              pixelInProgress := pixelInProgress | 0x03;
            }
            OrLowNibble(row[x - 1], color, low);
            assert pixelInProgress == high | low;
            SendData(pixelInProgress);
            PackedRowOdd(row, x);
            LogSnoc(rowStart, PackedRow(row[..x]), PackByte(row[x - 1], row[x]));
            assert log == rowStart + DataWrites(PackedRow(row[..x + 1]));
          }
        }
        assert row[..width] == row;
        LogAppend(old(log), Packed(rows[..y]), PackedRow(row));
      }
      assert rows[..|rows|] == rows;
      SendCommand(DISPLAY_REFRESH);
    }

    /**
      `setup_and_display_image`: opening the GPIO or the SPI device can
      fail (`gpioError`, `spiError`), and then nothing is written;
      otherwise the panel is initialised and the image sent.
    */
    method SetupAndDisplayImage(rows: seq<seq<bv8>>, width: nat, gpioError: Option<string>, spiError: Option<string>)
      returns (r: Result<()>)
      requires Rectangular(rows, width)
      modifies this
      ensures gpioError.Some? ==> r == Err(FromGpio(gpioError.value)) && log == old(log)
      ensures gpioError.None? && spiError.Some? ==> r == Err(FromSpi(spiError.value)) && log == old(log)
      ensures gpioError.None? && spiError.None? ==>
                r == Ok(()) && log == old(log) + INIT_SEQUENCE + DataWrites(Packed(rows)) + [Command(DISPLAY_REFRESH)]
    {
      if gpioError.Some? {
        return Err(FromGpio(gpioError.value));
      }
      if spiError.Some? {
        return Err(FromSpi(spiError.value));
      }
      InitDisplay();
      DisplayImage(rows, width);
      return Ok(());
    }
  }
}
