# Thermometer firmware core, in Dafny

This project models the application core of a BLE health-thermometer firmware for the TI
CC254x (an 8051 core built with IAR, where `unsigned int` is 16 bits wide). It covers four parts:

- **Comm** (`ther_comm.dfy`) builds the Temperature Measurement payload. It holds a flags
  byte, a 32-bit IEEE 11073-20601 FLOAT with exponent 0xFF (tenths of a degree), an optional
  7-byte time stamp and an optional type byte. This payload is sent as a notification or an
  indication. `EncodeTemp` specifies `encap_temp_buf` as its authors intended it, with a
  32-bit `temp`; `EncodeTempAsWritten` is what the 16-bit build writes (see "## Findings").
  `DecodeTemp` is the encoder's partner, the peer-side parser. `EncapTempBuf` is the in-place writer over a byte array,
  proved against `EncodeTemp`.
- **Buzzer** (`ther_buzzer.dfy`) is the tone sequencer: the record `{music, cur_pluse_step}`,
  Timer 4 as an abstract oscillator, and the OSAL buzzer timer as a log of effects. It has pure
  transition functions `Play`, `Tick` and `Stop`. The `Sequencer` class's methods are proved
  against them.
- **Oled** (`ther_oled.dfy`) is the 96x39 OLED driver. It models the I2C bus as the sequence of
  2-byte frames written, with one method per `set_*` command. `fill_block` is a nested loop
  proved against the recursive specification `BlockFrames`. Lemmas about `BlockFrames` give
  its length, its command bytes (only the page commands) and its data bytes (exactly the
  buffer's first pages x columns bytes).
- **Thermometer** (`thermometer.dfy`) is the OSAL task event processor. Each call handles the
  highest-priority pending event and returns the mask still to process. `Process` is its
  specification; `Task.ProcessEvent` is the imperative method proved against it.

Calls into the OSAL, the BLE stack and the hardware become recorded actions or effects. Their
results become parameters: the GAP connection handle, the current temperature, the sensor type
and the UTC clock reading.

## Model

| member | source | states |
|---|---|---|
| Comm.PayloadLength | Source/ther_comm.c:46-88 | the written length is 5, plus 7 with the time-stamp flag, plus 1 with the type flag; it is never more than 13 |
| Comm.Converted | Source/ther_comm.c:53-54 | a Celsius reading passes through unchanged; a Fahrenheit one becomes temp*9/5 + 320 (tenths) whenever temp*9 fits in 32 bits |
| Comm.FloatWord | Source/ther_comm.c:56 | OR-ing 0xFF000000 gives exponent byte 0xFF and keeps the value's low 24 bits as mantissa; a value below 2^24 is the mantissa exactly |
| Comm.LittleEndian32RoundTrip | Source/ther_comm.c:59-60 | reading back the four bytes of osal_buffer_uint32 gives the word |
| Comm.FromLittleEndian32RoundTrip | Source/ther_comm.c:59-60 | every 4-byte sequence is the little-endian encoding of the word it reads as |
| Comm.EncodeTemp | Source/ther_comm.c:46-88 | the payload has the flags' length, starts with the flag, has exponent byte 0xFF, carries the time stamp at bytes 5..11 when flagged and ends with the sensor type when flagged |
| Comm.DecodeTemp | Source/ther_comm.c:46-88 | a payload parses exactly when its length is the one its flag byte calls for; optional fields are present exactly when flagged |
| Comm.DecodeEncode | Source/ther_comm.c:46-88 | decoding an encoded payload gives back the flag, the converted temperature (24-bit mantissa), exponent 0xFF, the clock iff time-stamped and the type iff typed |
| Comm.EncodeDecode | Source/ther_comm.c:46-88 | every well-formed Celsius payload with exponent 0xFF is what the encoder writes for its decoded fields |
| Comm.BufferUint32 | Source/ther_comm.c:59-60 | writes the word low byte first at buf[i..i+4] and leaves the rest of the buffer unchanged |
| Comm.PutTime | Source/ther_comm.c:63-79 | writes year (low, high), month, day, hour, minutes and seconds at buf[i..i+7] and leaves the rest unchanged |
| Comm.EncapTempBuf | Source/ther_comm.c:46-88 | the returned length and the bytes written are exactly EncodeTemp's; bytes past the length are untouched |
| Comm.SendTempNotify | Source/ther_comm.c:91-104 | the notification carries the connection handle and the 6-byte Celsius-with-type payload of the current temperature |
| Comm.SendTempIndicate | Source/ther_comm.c:106-119 | the indication carries the connection handle, the task and the same 6-byte payload |
| Comm.EncodeTempAsWritten | Source/ther_comm.c:46-88 | the payload as the 16-bit build writes it has the same length as the intended one |
| Comm.ExponentLostAsWritten | Source/ther_comm.c:56-60 | as written, the exponent byte is always 0x00 and so differs from the intended 0xFF |
| Comm.ExponentLostExample | Source/ther_comm.c:56-60 | 36.5 C (365) is written as 04 6D 01 00 00 02 instead of 04 6D 01 00 FF 02, and a peer decodes exponent 0 |
| Buzzer.MusicPulse | Source/ther_buzzer.c:71-74 | every pulse of the music book lasts between 100 and 400 ms |
| Buzzer.MusicTone | Source/ther_buzzer.c:75-78 | no track uses the middle tone |
| Buzzer.TimerControl | Source/ther_buzzer.c:80-115 | the tone selects prescaler 32 (high) or 64 (low, mid), and the timer is started in modulo mode |
| Buzzer.LowMidSameConfiguration | Source/ther_buzzer.c:80-115 | low and middle tone program Timer 4 identically; high differs |
| Buzzer.Play | Source/ther_buzzer.c:131-141 | any state restarts at step 0 of the chosen track and arms the timer for 200 ms |
| Buzzer.Tick | Source/ther_buzzer.c:157-176 | while playing, a tick plays pulse `step` and advances the step; at the end it returns to step 0 with no effect; the track never changes |
| Buzzer.TickArmsWhilePlaying | Source/ther_buzzer.c:157-176 | a tick arms the timer if and only if the track has pulses left |
| Buzzer.Stop | Source/ther_buzzer.c:143-155 | only a playing sequencer is cancelled and silenced; the step is 0 afterwards |
| Buzzer.Ticks | Source/ther_buzzer.c:157-176 | any number of ticks keeps the state valid |
| Buzzer.Pulse | Source/ther_buzzer.c:160-173 | pulse k turns the tone on (even k) or off (odd k), then arms the timer for that pulse's duration |
| Buzzer.PulseTrain | Source/ther_buzzer.c:71-78 | a track's pulse train has two effects per pulse |
| Buzzer.PulsesFrom | Source/ther_buzzer.c:157-176 | the pulses from step k have two effects per remaining pulse |
| Buzzer.PulsesFromStart | Source/ther_buzzer.c:157-176 | the pulses from step 0 are the track's whole pulse train |
| Buzzer.TicksToEnd | Source/ther_buzzer.c:157-176 | from step k, the next 5 - k ticks play the remaining pulses in order and end at step 0 |
| Buzzer.PlayThenFiveTicks | Source/ther_buzzer.c:131-176 | after play, five ticks produce the 200 ms delay and then on/off/on/off with the track's durations, and end at step 0 |
| Buzzer.StepStaysBounded | Source/ther_buzzer.c:131-176 | under any sequence of plays, ticks and stops the step stays in 0..4 and the track stays valid |
| Buzzer.StopBeforeFirstTick | Source/ther_buzzer.c:131-155 | a stop right after play, before the first tick, cancels nothing and silences nothing, so the armed 200 ms timer still starts the whole pulse train |
| Buzzer.PulseTrainEndsSilent | Source/ther_buzzer.c:157-176 | a whole pulse train leaves the buzzer silent |
| Buzzer.Sequencer.constructor | Source/ther_buzzer.c:178-191 | the record starts at track 0, step 0, buzzer silent |
| Buzzer.Sequencer.StartBuzzer | Source/ther_buzzer.c:80-115 | the oscillator runs with the tone's timer control word |
| Buzzer.Sequencer.StopBuzzer | Source/ther_buzzer.c:120-129 | the oscillator is silent |
| Buzzer.Sequencer.PlayMusic | Source/ther_buzzer.c:131-141 | the new state and effects are Play's; the oscillator is untouched |
| Buzzer.Sequencer.StopMusic | Source/ther_buzzer.c:143-155 | the new state, effects and oscillator are those of Stop |
| Buzzer.Sequencer.CheckMusicEnd | Source/ther_buzzer.c:157-176 | the new state, effects and oscillator are those of Tick |
| Oled.Truncate | Source/ther_oled_9639.c:94-99 | a macro value below 256 reaches send_cmd unchanged |
| Oled.EntireDisplayCmd | Source/ther_oled_9639.c:33 | the opcode is 0xA4 plus the argument |
| Oled.DisplayInverseCmd | Source/ther_oled_9639.c:39 | the opcode is 0xA6 plus the argument |
| Oled.StartLineCmd | Source/ther_oled_9639.c:61 | lines 0..63 map to opcodes 0x40..0x7F carrying the line |
| Oled.SegmentRemapCmd | Source/ther_oled_9639.c:68 | the opcode is 0xA0 plus the argument |
| Oled.ChargePumpArg | Source/ther_oled_9639.c:87-88 | the argument shifted left by two is a multiple of 4 and gives back the argument when it fits |
| Oled.StartPageCmd | Source/ther_oled_9639.c:56 | the panel's pages 0..4 map to 0xB0..0xB4, and the command reads back as the page |
| Oled.StartColLowCmd | Source/ther_oled_9639.c:53 | the low-nibble command is below 0x10 |
| Oled.StartColHighCmd | Source/ther_oled_9639.c:54 | the high-nibble command is in 0x10..0x1F, and at most 0x15 for the panel's 96 columns |
| Oled.ColumnRoundTrip | Source/ther_oled_9639.c:170-178 | the low and high column commands together carry the column exactly |
| Oled.DataFrames | Source/ther_oled_9639.c:105-110 | one data frame per byte |
| Oled.DataBytesAppend | Source/ther_oled_9639.c:94-110 | the data and command bytes of concatenated frames concatenate |
| Oled.DataFramesBytes | Source/ther_oled_9639.c:105-110 | the data frames of a buffer carry exactly its bytes and no command |
| Oled.AreaIsProduct | Source/ther_oled_9639.c:245-259 | the bytes consumed by `rows` rows of `cols` columns are rows * cols |
| Oled.PageCommands | Source/ther_oled_9639.c:251-253 | one page command per page |
| Oled.BlockLength | Source/ther_oled_9639.c:245-259 | a block writes pages x (columns + 1) frames |
| Oled.BlockCommands | Source/ther_oled_9639.c:245-259 | a block's command bytes are exactly its page commands, in page order; no column is set |
| Oled.BlockData | Source/ther_oled_9639.c:245-259 | a block's data bytes are the buffer's first pages x columns bytes, in order |
| Oled.Panel.constructor | Source/ther_oled_9639.c:287-294 | the bus starts empty |
| Oled.Panel.SendCmd | Source/ther_oled_9639.c:94-99 | one frame of type 0x00 carrying the command |
| Oled.Panel.SendData | Source/ther_oled_9639.c:105-110 | one frame of type 0x40 carrying the data byte |
| Oled.Panel.SetContrast | Source/ther_oled_9639.c:117-123 | opcode 0x81, then the contrast step |
| Oled.Panel.SetEntireDisplayOn | Source/ther_oled_9639.c:125-128 | one entire-display command |
| Oled.Panel.SetDisplay | Source/ther_oled_9639.c:130-133 | one normal/inverse command |
| Oled.Panel.SetDisplayOn | Source/ther_oled_9639.c:135-138 | the single command 0xAF |
| Oled.Panel.SetDisplayOff | Source/ther_oled_9639.c:140-143 | the single command 0xAE |
| Oled.Panel.SetStartPage | Source/ther_oled_9639.c:158-168 | one page-address command, in 0xB0..0xB4 for the panel's pages |
| Oled.Panel.SetStartColumn | Source/ther_oled_9639.c:170-178 | the low then the high nibble command, which together select the column |
| Oled.Panel.SetStartLine | Source/ther_oled_9639.c:184-187 | one start-line command |
| Oled.Panel.SetSegmentRemap | Source/ther_oled_9639.c:189-192 | one segment-remap command |
| Oled.Panel.SetMultiplexRatio | Source/ther_oled_9639.c:194-198 | opcode 0xA8, then the ratio |
| Oled.Panel.SetDisplayClock | Source/ther_oled_9639.c:205-214 | opcode 0xD5, then the divider byte |
| Oled.Panel.SetPrechargePeriod | Source/ther_oled_9639.c:216-226 | opcode 0xD9, then the period byte |
| Oled.Panel.SetVcomhDeselect | Source/ther_oled_9639.c:228-234 | opcode 0xDB, then the 16-bit level truncated to its low byte |
| Oled.Panel.SetChargePump | Source/ther_oled_9639.c:239-243 | opcode 0x8D, then the shifted argument |
| Oled.Panel.SendRow | Source/ther_oled_9639.c:255-257 | the inclusive `<=` column loop runs endCol - startCol + 1 times (none when startCol > endCol), sending one data frame per column with the next bytes of the buffer, and returns the index after them |
| Oled.Panel.FillPage | Source/ther_oled_9639.c:251-258 | one outer-loop pass extends the bus by the next page of the block specification |
| Oled.Panel.FillBlock | Source/ther_oled_9639.c:245-259 | the frames written are exactly BlockFrames for the page and column ranges |
| Thermometer.Route | Source/thermometer.c:43-58 | key-change messages go to the button handler, GATT messages to the GATT handler, and every other message is ignored |
| Thermometer.Classify | Source/thermometer.c:73-105 | the branch taken is the first pending one of SYS_EVENT_MSG, TH_CCC_UPDATE_EVT and TH_PERIODIC_IMEAS_EVT, and none exactly when no handled bit is pending |
| Thermometer.Remaining | Source/thermometer.c:73-105 | the returned mask is the input with the handled bit cleared, or 0 when no handled bit is pending |
| Thermometer.SetsNoBit | Source/thermometer.c:73-105 | the returned mask sets no bit that was not pending |
| Thermometer.ClearsHandledBit | Source/thermometer.c:73-105 | the handled bit and the returned mask partition the input mask |
| Thermometer.PriorityDrops | Source/thermometer.c:73-105 | feeding the result back in takes a strictly lower-priority branch, or returns 0 |
| Thermometer.DrainsWithinFour | Source/thermometer.c:73-105 | any mask is fully processed after at most four calls |
| Thermometer.IndicationFor | Source/thermometer.c:89-95 | the indication's payload is 6 bytes and starts with the notify flag |
| Thermometer.Process | Source/thermometer.c:73-105 | per branch: one message taken from the queue head, routed and freed; or an indication and a 3000 ms re-arm; or a 3000 ms re-arm only; or nothing |
| Thermometer.ProcessInvariants | Source/thermometer.c:73-105 | at most one message leaves the queue, from its head, and is deallocated last; every re-armed timer is the handled bit, for 3000 ms |
| Thermometer.Task.constructor | Source/thermometer.c:123-127 | the task records its id, with an empty log |
| Thermometer.Task.HandleMsg | Source/thermometer.c:43-58 | the log grows by Route's actions |
| Thermometer.Task.Receive | Source/thermometer.c:80 | the head of the queue is returned and removed, or nothing from an empty queue |
| Thermometer.Task.ProcessEvent | Source/thermometer.c:73-106 | the returned mask, the new queue and the new log entries are those Process specifies; the task id is unchanged |

## Left out

- The SPI flash driver (`ther_spi_w25x40cl.c`), the UART, the BLE profile set-up (`ther_ble`)
  and the button handler are not part of this model. `ther_handle_button` and
  `ther_handle_gatt_msg` appear only as recorded actions.
- `ther_handle_gatt_msg` and the `ther_flags` table of `ther_comm.c` are left out. The handler
  passes notifications and indications to `timeAppIndGattMsg` of the time-application code,
  which is not part of this model, and ignores every other method; the table is not read by
  the modelled functions.
- `oled_init` only logs and opens the I2C bus with `HalI2CInit`; the model's bus starts empty
  in `Oled.Panel.constructor`. `fill_screen`'s only statement is commented out and the
  `oled_show_*` functions are empty, so there is nothing of them to model. No setter is called
  anywhere in `ther_oled_9639.c`.
- Special-function-register writes (T4CTL, T4CC0, T4CCTL0, P1SEL, P1DIR, the buzzer pin) are
  abstracted. The model keeps a `Silent`/`Sounding(control)` oscillator and the T4CTL control
  word.
- The OSAL clock, `ble_get_gap_handle`, `get_current_temp`, `Thermometer_GetParameter(THERMOMETER_TYPE)`
  and the BLE send calls are foreign. Their results are parameters, and the sends become returned
  `Notification`/`Indication` values. The attribute handle is not modelled.
- Debug printing over the UART is left out.
- Thermometer.Task.constructor: `Thermometer_Init` is modelled only as far as recording the
  task id. UART, BLE and key registration are foreign calls.
- Thermometer: TH_PERIODIC_IMEAS_EVT (0x0004) and TH_CCC_UPDATE_EVT (0x0010) are the usual
  values from `thermometer.h`, which is not part of this model. SYS_EVENT_MSG (0x8000),
  KEY_CHANGE (0xC0) and GATT_MSG_EVENT (0xB0) are the OSAL and BLE stack values.
- Thermometer.Process has no branch for the buzzer timer event. `Thermometer_ProcessEvent` has
  none either, so `ther_check_music_end` is reached only through the `Buzzer` model.
- Buzzer.Sequencer.PlayMusic requires the track number to be below 2. `ther_play_music` stores
  any value, and the next tick then indexes the music tables out of bounds, which C leaves
  undefined.
- Buzzer.TimerControl: `start_buzzer`'s switch has a default case for an out-of-range tone. The
  model's `Tone` type has only the three tones, so that case cannot arise.
- Oled.Panel.FillBlock: the data pointer is modelled as a read-only sequence of bytes, not an
  aliased array. The loop body is split into the methods FillPage (one page) and SendRow (one
  row). The precondition excludes 255 as the last page or column, where the source's
  `unsigned char` counter would wrap and loop forever.
- Comm.Converted: a Fahrenheit value whose `temp * 9` exceeds 32 bits is modelled with 32-bit
  wrap-around, but no contract states the wrapped value.
- Comm.EncapTempBuf, Comm.SendTempNotify, Comm.SendTempIndicate, Thermometer.IndicationFor,
  Thermometer.Process and Thermometer.Task.ProcessEvent model the intended 32-bit `temp`; the
  bytes the 8051 build sends are EncodeTempAsWritten's, with exponent byte 0x00 (see "## Findings").
- The model follows the code in three behaviours: `ther_play_music` restarts a playing track; the Fahrenheit offset is 320 tenths of a degree;
  the time stamp is 7 bytes.

## Findings

| source | as written | input that shows it | evidently intended | confidence | as-written member | corrected member |
|---|---|---|---|---|---|---|
| Source/ther_comm.c:46-60 | `temp` is an `unsigned int`, 16 bits on the 8051 target, so `temp = 0xFF000000 \| temp` truncates back to 16 bits and the exponent byte written is 0x00 | flag 0x04 (Celsius, type), temp 365 (36.5 C): the bytes are 04 6D 01 00 00 02 and a peer reads 365 degrees | a 32-bit word with exponent 0xFF: 04 6D 01 00 FF 02 | not executed | Comm.ExponentLostExample | Comm.DecodeEncode |
