# Audio synthesizer firmware: synthesis step and MIDI parsers in Dafny

This project models the core of a small STM32 audio synthesizer firmware in two parts.

**The per-tick synthesis step, in each firmware generation.**
- H533 channel driver: seven polyphonic channels of up to four voices. Each voice runs an ADSR envelope, a pitch-bend and modulation frequency delta in fixed point, a masked phase accumulator and a table lookup. Each channel mixes its voices and divides the sum by `active_voices` into a timer capture/compare register.
- Simpler single-voice channels: channels 1..4 and 5..7 on TIM3/TIM4, the first generation's channel 1, and the two DAC noise channels. Each tick they advance a counter, wrap it, look up a sample and scale it by the volume.

**The MIDI byte-stream parsers.** `set_midi` (H533) and `get_midi` (F072) read a receive buffer up to a 0x00 byte. They classify each status byte by its high nibble, mask data bytes to 7 bits, and consume a fixed number of bytes per message type. H533 turns note messages into calls on the channel 1..4 driver. F072 turns them into GPIO writes that light LEDs.

## How the C is modelled

**Types and integer arithmetic**
- Every hardware struct is an immutable datatype, and every update is a pure function. An update returns the new state together with what it writes to an output register: `NoWrite`, `Write(register, value)`, or `Undefined`.
- `Undefined` stands for a step C leaves undefined: a shift by a negative count, a division by zero, or a read past an array.
- C's fixed-width integers are subset types of `int`. Every wrap-around is written out: 32-bit sums are taken `% 2^32`, stores into `uint16_t` are taken `% 2^16`, and the MIDI cursor `index` wraps at 2^16.
- The bit masks `& 0x7F`, `& 0xF0` and `& SAMPLE_FREQUENCY_MASK` are a recursive bitwise AND (`Bits.And`). Proved lemmas connect it to `%` and `/`.

**Data from headers outside the model**
- The wavetables, the envelope and modulation curves, `SAMPLE_RESOLUTION_MASK` and `TWO_SEMITONE_SCALAR` come from headers that are not part of this model.
- They are a `Rom` parameter. Each generation states what it needs of them (`ChannelVoice.RomOk`).

**Engine state in the H533 driver**
- The engine state is the seven channel structs plus the four `channel1_state.voices[v].env_target` values.
- `calculate_voice_output` works on a copy of the voice. Its only lasting write is to channel 1's `env_target`, whatever channel it is stepping.

**The MIDI parsers**
- Each parser takes the buffer and the start value of the file-level cursor `index`, which is never reset. It returns the final cursor.
- The C loop has no bound, and it spins forever on a status byte of type 0..7. The model therefore takes a bound on the number of loop passes and reports why it stopped: terminator, spin, read past the end, or bound reached.

**Quirks kept as written**
- `channel_enable`/`channel_disable` of CHANNEL5..7 write the flags of channels 1..3.
- `channel_voice_velocity` writes `mod`.
- `channel_voice_on` clears `env_start` only for CHANNEL1.
- `reset_channel` loops over the unclamped voice count.
- `active_voices` is set to 0 by `reset_channel` and never set again. So once the driver is initialised, every enabled channel's update divides by zero (`ChannelDriver.EnabledUpdateUndefinedAfterInit`).
- The H533 `set_channel` masks with 0xF0, so every status byte selects CHANNEL1.
- `midi_note_get_frequency` tests `key_num > 0` after an unsigned subtraction, so only key 36 gets a note frequency (65); every other key gets 60.
- Control change runs on into program change and consumes 5 bytes.
- The F072 note-off branches for keys 0x25..0x27 pass a pin mask as the GPIO port.
- `channel5_7_timer.c` addresses its third channel by the literal 2, so the CHANNEL7 value is ignored.

## Model

| member | source | states |
|---|---|---|
| Common.WaveOf | Audio_Synthesizer_H533/Core/Inc/channel_common.h:42-49 | a waveforms_t value names a wave exactly when it is 0..4; 3 is SQUARE and 4 is NOISE |
| Common.WriteTo | Audio_Synthesizer_H533/Core/Src/channel_driver.c:443-471 | a register switch writes the value exactly when the channel selects a register, and otherwise writes nothing (never undefined) |
| Common.SubtractWhileAbove | Src/channel1_timer.c:130-131 | the subtraction loop ends at or below the limit, never above its input, unchanged if already at or below the limit, and within one step of the limit otherwise |
| Common.SubtractModulusIsMod | Src/channel1_timer.c:130-131 | subtracting SAMPLE_FREQUENCY while above the mask is reduction modulo SAMPLE_FREQUENCY |
| Common.SubtractMaskClosedForm | Audio_Synthesizer_H533/Core/Src/channel1_4_timer.c:288-289 | subtracting the mask while above it gives the value itself at or below the mask, else the residue modulo the mask, with the mask standing for residue 0 |
| Common.ShiftSample | Audio_Synthesizer_H533/Core/Src/channel1_4_timer.c:301 | a right shift is defined exactly for counts 0..31, where it is the sample divided by 2 to the count (rounded down); it never increases the sample and leaves it unchanged at count 0 |
| Common.VolumeShift | Audio_Synthesizer_H533/Core/Src/channel1_4_timer.c:301 | the attenuation count is 0..7 and is the sixteenths of headroom for volumes up to 127, 0 at full volume, -1 for 128..143 and below -1 above |
| MidiStream.StatusCode | Audio_Synthesizer_H533/Core/Src/midi.c:104-107 | the message type is below 16 and is the high nibble of the byte (16r <= b < 16(r+1)) |
| MidiStream.StatusCodeIsMaskShift | Audio_Synthesizer_F072/Src/midi.c:74-77 | the high nibble equals the byte masked with 0xF0 and shifted right by 4 |
| MidiStream.DataValue | Audio_Synthesizer_H533/Core/Src/midi.c:205-258 | every data field is the byte masked with 0x7F: at most 127, the byte itself below 128 and the byte minus 128 above |
| MidiStream.Length | Audio_Synthesizer_H533/Core/Src/midi.c:332-392 | message types 8..15 consume 3 (note off, note on, key pressure, pitch bend), 5 (control change, which runs on into program change), 2 (program change, channel pressure) or 1 (system) bytes; types 0..7 match no case |
| MidiStream.Bump | Audio_Synthesizer_H533/Core/Src/midi.c:88 | the 16-bit cursor after k increments is the plain sum while that fits 16 bits |
| MidiStream.NextFrame | Audio_Synthesizer_H533/Core/Src/midi.c:330-392 | one pass of the loop stops on a 0x00 byte at the cursor and spins on a byte 0x01..0x7F (both iff); a found message starts with the byte at the cursor, is well formed, holds the following bytes in order, and moves the cursor by its length |
| MidiStream.Body | Audio_Synthesizer_H533/Core/Src/midi.c:205-258 | the bytes after the status byte are read one cursor increment apart |
| MidiStream.Scan | Audio_Synthesizer_F072/Src/midi.c:228-310 | the loop yields only well-formed messages, at most one per pass; it ends on a terminator only with 0x00 at the final cursor, and spins only on a byte 0x01..0x7F there |
| MidiStream.FrameOfEncoded | Audio_Synthesizer_H533/Core/Src/midi.c:330-392 | a well-formed message at the cursor is found whole and the cursor moves just past it |
| MidiStream.EncodeAllCons | Audio_Synthesizer_H533/Core/Src/midi.c:330-392 | a buffer holding an encoded message sequence splits into the first message and the rest |
| MidiStream.ScanEncoded | Audio_Synthesizer_H533/Core/Src/midi.c:330-393 | decoding inverts encoding: over well-formed messages and a terminator, the loop finds exactly those messages and stops on the terminator with the cursor on it |
| MidiStream.SpinsInPlace | Audio_Synthesizer_H533/Core/Src/midi.c:330-332 | a status byte of type 0..7 is never consumed: the loop stays at the same cursor however many passes it is allowed |
| MidiH533.SetChannel | Audio_Synthesizer_H533/Core/Src/midi.c:189-204 | every status byte selects CHANNEL1, since the 0xF0-masked value is a multiple of 16 |
| MidiH533.OctaveSplit | Audio_Synthesizer_H533/Core/Src/midi.c:269-272 | the octave loop yields the note within the octave (key mod 12) and adds key / 12 octaves |
| MidiH533.NoteFrequency | Audio_Synthesizer_H533/Core/Src/midi.c:261-290 | the frequency is 65 if and only if the key is 36, and 60 if and only if it is not |
| MidiH533.NoteCalls | Audio_Synthesizer_H533/Core/Src/midi.c:338-361 | a note message makes three calls on CHANNEL1: the gate, the frequency of its key (65 for key 36, else 60), then the velocity masked to 7 bits as the volume |
| MidiH533.Dispatch | Audio_Synthesizer_H533/Core/Src/midi.c:332-392 | note on makes the note calls with ON and note off with OFF; every other type makes no call |
| MidiH533.NoteGroupsAppend | Audio_Synthesizer_H533/Core/Src/midi.c:338-361 | call lists made of whole gate/frequency/volume groups stay so when joined |
| MidiH533.DispatchAll | Audio_Synthesizer_H533/Core/Src/midi.c:332-392 | any message sequence yields whole gate/frequency/volume groups, at most one per message, all on CHANNEL1, with frequency 60 or 65 and volume at most 127 |
| MidiH533.SetMidi | Audio_Synthesizer_H533/Core/Src/midi.c:326-394 | whatever the buffer holds, the parser only switches, tunes and sets the volume of CHANNEL1, in whole groups, at most one group per message; it ends on a terminator only with 0x00 under the cursor, and spins only on a byte 0x01..0x7F there |
| MidiH533.SetMidiEncoded | Audio_Synthesizer_H533/Core/Src/midi.c:326-394 | over well-formed messages and a terminator, the parser makes each message's calls in order and ends on the terminator |
| MidiH533.NoteOnDrivesChannel1 | Audio_Synthesizer_H533/Core/Src/midi.c:338-349 | a note on with key k and velocity v turns channel 1 on from the table start, at 65 Hz for key 36 and 60 Hz otherwise, at volume v, and leaves channels 2..4 alone |
| MidiF072.SetChannel | Audio_Synthesizer_F072/Src/midi.c:160-165 | the stored channel is the raw status masked with 0xF0: a multiple of 16, at most 0xF0, the byte minus its low nibble |
| MidiF072.NoteOf | Audio_Synthesizer_F072/Src/midi.c:237-239 | a note message's record is the masked status, and the key and velocity masked to 7 bits |
| MidiF072.NoteOnAction | Audio_Synthesizer_F072/Src/midi.c:240-255 | note on sets an LED of PORT_LED exactly for keys 0x24..0x27: red, green, blue or orange in that order |
| MidiF072.NoteOffAction | Audio_Synthesizer_F072/Src/midi.c:262-276 | note off writes low exactly for keys 0x24..0x27, always to the red pin, and to PORT_LED only for key 0x24 |
| MidiF072.Handle | Audio_Synthesizer_F072/Src/midi.c:230-309 | note on and note off write their key's pin and replace the record; every other type writes nothing and keeps it |
| MidiF072.HandleAllCons | Audio_Synthesizer_F072/Src/midi.c:236-239 | after the first message the record is that message's own for a note message and the earlier one otherwise |
| MidiF072.HandleAllLast | Audio_Synthesizer_F072/Src/midi.c:226-312 | the returned record is that of the last note message, or the record passed in when there was none |
| MidiF072.GetMidi | Audio_Synthesizer_F072/Src/midi.c:224-313 | the record returned is that of the last note message parsed, or none; no write turns off any LED but the red one; at most one write per message; it ends on a terminator only with 0x00 under the cursor |
| MidiF072.HandleAll | Audio_Synthesizer_F072/Src/midi.c:230-309 | no message writes more than once, every low write to PORT_LED is to the red pin (a lit green, blue or orange LED is never turned off), and without a note message the record is kept |
| MidiF072.GetMidiEncoded | Audio_Synthesizer_F072/Src/midi.c:224-313 | over well-formed messages and a terminator, the parser performs each message's writes in order and ends on the terminator |
| ChannelVoice.AttackStep | Audio_Synthesizer_H533/Core/Src/channel_driver.c:487-504 | ATTACK writes the velocity's target; on completion it moves to DECAY with a restarted counter, start at the target and envelope 0; otherwise it counts on with an envelope between ADSR_MIN and ADSR_MAX for a 7-bit velocity |
| ChannelVoice.AttackTarget | Audio_Synthesizer_H533/Core/Src/channel_driver.c:488 | the stored target is the product taken modulo 2^16, that is 35016 * velocity + 409 modulo 2^16: ADSR_MIN at velocity 0 and always 1 modulo 8 |
| ChannelVoice.AttackTargetWraps | Audio_Synthesizer_H533/Core/Src/channel_driver.c:488 | the 16-bit truncation makes the target non-monotone: velocity 1 stores 35425 and velocity 2 stores 4905 |
| ChannelVoice.Finishes | Audio_Synthesizer_H533/Core/Src/channel_driver.c:490-493 | a stage completes exactly when its counter has reached SAMPLE_RESOLUTION_MASK, except that a counter at 2^32 - 1 wraps to 0 and does not complete |
| ChannelVoice.AttackLevel | Audio_Synthesizer_H533/Core/Src/channel_driver.c:502 | the attack envelope is at least ADSR_MIN and, for a 7-bit velocity, at most 1024 |
| ChannelVoice.AttackProduct | Audio_Synthesizer_H533/Core/Src/channel_driver.c:502 | the attack product stays within ADSR_RANGE * 1023 * 255 (and * 127 for a 7-bit velocity), so the int cannot overflow |
| ChannelVoice.DecayStep | Audio_Synthesizer_H533/Core/Src/channel_driver.c:505-522 | DECAY writes target ADSR_MID; on completion it moves to SUSTAIN with envelope 0; otherwise the envelope lies between env_start and ADSR_MID |
| ChannelVoice.DecayLevel | Audio_Synthesizer_H533/Core/Src/channel_driver.c:520 | the decay envelope lies between the start value and ADSR_MID, on either side |
| ChannelVoice.ReleaseStep | Audio_Synthesizer_H533/Core/Src/channel_driver.c:525-539 | RELEASE keeps the target; on completion it restarts ATTACK from it with envelope 0; otherwise the envelope is at most env_start |
| ChannelVoice.Envelope | Audio_Synthesizer_H533/Core/Src/channel_driver.c:485-540 | SUSTAIN leaves the voice and envelope 0; a completing stage moves to the next stage with envelope 0; otherwise only the envelope counter moves; phase, frequency, bend and modulation fields are untouched |
| ChannelVoice.ScaleTowardZero | Audio_Synthesizer_H533/Core/Src/channel_driver.c:520 | scaling by a 10-bit curve value over 1024 moves a value toward zero and never past it |
| ChannelVoice.PitchTerm | Audio_Synthesizer_H533/Core/Src/channel_driver.c:544-548 | the pitch-bend term is 0 for a neutral bend (64, or any value whose top bits are 64) and below 2^17 |
| ChannelVoice.NextModCount | Audio_Synthesizer_H533/Core/Src/channel_driver.c:554-555 | the modulation counter advances by one modulo SAMPLE_FREQUENCY and stays within the mask |
| ChannelVoice.ModTerm | Audio_Synthesizer_H533/Core/Src/channel_driver.c:551-559 | the modulation term is 0 without modulation or at frequency 0, and below 2^22 |
| ChannelVoice.WordShift10 | Audio_Synthesizer_H533/Core/Src/channel_driver.c:558 | a 32-bit pattern shifted right by 10 is below 2^22, and 0 for 0 |
| ChannelVoice.FrequencyDelta | Audio_Synthesizer_H533/Core/Src/channel_driver.c:543-559 | with bend 64 and no modulation the frequency delta is 0 |
| ChannelVoice.PhaseAdvance | Audio_Synthesizer_H533/Core/Src/channel_driver.c:562-563 | the new phase is count + frequency + delta modulo SAMPLE_FREQUENCY, at most the mask, whatever 32-bit wraps occur on the way |
| ChannelVoice.Scale | Audio_Synthesizer_H533/Core/Src/channel_driver.c:565-567 | the scaled sample is 0 at envelope 0, at most the sample up to envelope 1024, and the sample itself at 1024 |
| ChannelVoice.Sound | Audio_Synthesizer_H533/Core/Src/channel_driver.c:542-567 | the phase is the masked sum of frequency, bend and modulation terms (just the frequency when neutral), the table index is in range, the modulation counter advances only with modulation, nothing else of the copy changes, and the output is bounded by the table sample and is 0 at envelope 0 |
| ChannelVoice.VoiceTick | Audio_Synthesizer_H533/Core/Src/channel_driver.c:473-568 | a closed voice past attack returns 0 and changes nothing; otherwise the phase, index bound, modulation counter and envelope are as in the stage step; SUSTAIN and a completing stage return 0 |
| ChannelVoice.PhaseSum | Audio_Synthesizer_H533/Core/Src/channel_driver.c:562-563 | both 32-bit wraps of the phase update vanish modulo SAMPLE_FREQUENCY |
| ChannelVoice.WordModSum | Audio_Synthesizer_H533/Core/Src/channel_driver.c:562 | adding a value reduced modulo 2^32 is, modulo SAMPLE_FREQUENCY, adding the value itself |
| ChannelVoice.ScaledSample | Audio_Synthesizer_H533/Core/Src/channel_driver.c:565-567 | a 16-bit sample times an envelope, wrapped to 32 bits and shifted right by 10, is 0 at envelope 0 and at most the sample for envelopes up to 1024 |
| ChannelVoice.OutputIgnoresTarget | Audio_Synthesizer_H533/Core/Src/channel_driver.c:485-540 | the persistent env_target never changes the returned sample |
| ChannelDriver.CcrOf | Audio_Synthesizer_H533/Core/Src/channel_driver.c:443-471 | CHANNEL1 drives CCR4 of TIM3, CHANNEL2..4 CCR1..3 of TIM3, CHANNEL5..7 CCR1..3 of TIM4; other values none |
| ChannelDriver.CcrInjective | Audio_Synthesizer_H533/Core/Src/channel_driver.c:443-471 | distinct channels drive distinct registers |
| ChannelDriver.VoiceOutput | Audio_Synthesizer_H533/Core/Src/channel_driver.c:477-478 | a closed voice past attack, and a voice in SUSTAIN, contribute 0 |
| ChannelDriver.CalculateVoiceOutput | Audio_Synthesizer_H533/Core/Src/channel_driver.c:473-568 | returns the voice's sample; only slot v of channel 1's targets can change: to the velocity target in ATTACK, to ADSR_MID in an open DECAY, and not at all when closed, in SUSTAIN or in RELEASE |
| ChannelDriver.Mix | Audio_Synthesizer_H533/Core/Src/channel_driver.c:575-580 | the 32-bit accumulation is the true sum whenever that sum fits 32 bits |
| ChannelDriver.MixSnoc | Audio_Synthesizer_H533/Core/Src/channel_driver.c:577-580 | the 32-bit mix of n samples is the mix of the first n - 1 plus the last, wrapped |
| ChannelDriver.MixIsSumModWord | Audio_Synthesizer_H533/Core/Src/channel_driver.c:575-580 | the 32-bit accumulation equals the true sum modulo 2^32 |
| ChannelDriver.MixOfZeros | Audio_Synthesizer_H533/Core/Src/channel_driver.c:575-580 | silent samples mix to 0 |
| ChannelDriver.MixSilent | Audio_Synthesizer_H533/Core/Src/channel_driver.c:477-480 | voices that are all closed past their attack mix to 0 |
| ChannelDriver.ChannelOut | Audio_Synthesizer_H533/Core/Src/channel_driver.c:570-587 | disabled writes nothing; enabled is undefined iff active_voices is 0 or num_voices exceeds 4; a write goes to the channel's own register and is the true voice sum modulo 2^32, divided by active_voices, stored in 16 bits |
| ChannelDriver.SumVoices | Audio_Synthesizer_H533/Core/Src/channel_driver.c:575-580 | the loop's sum is the 32-bit mix of the first n voice samples; targets of later voices are untouched |
| ChannelDriver.ChannelUpdate | Audio_Synthesizer_H533/Core/Src/channel_driver.c:570-587 | the method writes exactly what ChannelOut states and leaves the targets alone when disabled |
| ChannelDriver.UpdateAll | Audio_Synthesizer_H533/Core/Src/channel_driver.c:589-598 | each channel writes what ChannelOut states for it, and the channels themselves are unchanged |
| ChannelDriver.EnableSlot | Audio_Synthesizer_H533/Core/Src/channel_driver.c:88-160 | CHANNEL1..4 select their own struct, CHANNEL5..7 select channels 1..3, other values none |
| ChannelDriver.TableOf | Audio_Synthesizer_H533/Core/Src/channel_driver.c:166-182 | SINE..SQUARE select their own table; NOISE and unknown values none |
| ChannelDriver.VoiceUpdate | Audio_Synthesizer_H533/Core/Src/channel_driver.c:249-434 | voice on opens the gate and zeroes count, mod_count and env_count (env_start only on CHANNEL1), leaving ADSR state alone; off only closes the gate; frequency and modulation write their field; velocity writes mod and not velocity |
| ChannelDriver.SetEnable | Audio_Synthesizer_H533/Core/Src/channel_driver.c:88-160 | enable/disable set only the flag of the selected struct, and nothing for an unknown channel |
| ChannelDriver.SetWaveformOf | Audio_Synthesizer_H533/Core/Src/channel_driver.c:162-217 | a known table sets tag and data of that channel only; NOISE, unknown waves or channels change nothing |
| ChannelDriver.SetVolume | Audio_Synthesizer_H533/Core/Src/channel_driver.c:219-247 | the volume of that channel only; unknown channels change nothing |
| ChannelDriver.SetVoice | Audio_Synthesizer_H533/Core/Src/channel_driver.c:249-434 | one voice of one channel changes as VoiceUpdate says; a voice index of 4 or more or an unknown channel changes nothing |
| ChannelDriver.ApplyChannels | Audio_Synthesizer_H533/Core/Src/channel_driver.c:88-434 | no control call changes a channel's id, num_voices or active_voices |
| ChannelDriver.Apply | Audio_Synthesizer_H533/Core/Src/channel_driver.c:88-434 | control calls never touch channel 1's envelope targets |
| ChannelDriver.EnableReachesFirstBank | Audio_Synthesizer_H533/Core/Src/channel_driver.c:108-118 | enabling CHANNEL5..7 turns on channels 1..3 and leaves the TIM4 channel as it was |
| ChannelDriver.ResetChannel | Audio_Synthesizer_H533/Core/Src/channel_driver.c:606-630 | defined iff the count fits the voices array; sets enable 0, volume 127, sine table, id, active_voices 0 and the count; each reset voice is in ATTACK, closed, velocity 64, with count, frequency and bend 0; other voices unchanged |
| ChannelDriver.Init | Audio_Synthesizer_H533/Core/Src/channel_driver.c:666-672 | every channel gets its own id, is disabled with no active voices and the sine table, with 4 voices on channels 1..4 and 1 on 5..7 |
| ChannelDriver.ApplyAll | Audio_Synthesizer_H533/Core/Src/channel_driver.c:88-434 | any call sequence keeps the engine well formed, the targets, and every active_voices |
| ChannelDriver.EnabledUpdateUndefinedAfterInit | Audio_Synthesizer_H533/Core/Src/channel_driver.c:583 | after initialisation, whatever calls follow, an enabled channel's update divides by zero |
| TimerChannel.Advance | Audio_Synthesizer_H533/Core/Src/channel1_4_timer.c:286-289 | the counter ends at most the mask: the sum itself if within the mask, minus the mask once if within twice the mask, the residue modulo the mask otherwise |
| TimerChannel.Attenuate | Audio_Synthesizer_H533/Core/Src/channel1_4_timer.c:301 | defined iff the index is in the table and the volume is at most 127; then it is the sample divided by 2 to the power (127 - vol) >> 4, so never above the sample and the sample itself at volume 127 |
| TimerChannel.Update | Audio_Synthesizer_H533/Core/Src/channel1_4_timer.c:275-303 | disabled writes nothing and changes nothing; gate off writes ARR >> 1 and keeps the counter; otherwise the counter advances within the mask; square writes 0 below half the mask and ARR above; other waves write the table sample divided by 2 to the power (127 - vol) >> 4, undefined iff out of table or volume above 127 |
| TimerChannel.AttenuateMonotone | Audio_Synthesizer_H533/Core/Src/channel1_4_timer.c:301 | a louder volume never gives a smaller sample |
| TimerChannel.UpdateDefined | Audio_Synthesizer_H533/Core/Src/channel1_4_timer.c:275-303 | with a full table and volume at most 127 an update is never undefined |
| TimerChannel.Apply | Audio_Synthesizer_H533/Core/Src/channel1_4_timer.c:73-252 | each setter writes its own field only (on_off also the counter) |
| TimerChannel.OnOff | Audio_Synthesizer_H533/Core/Src/channel1_4_timer.c:167-210 | nonzero opens the gate and zeroes the counter; zero only closes the gate |
| TimerChannel.Reset | Audio_Synthesizer_H533/Core/Src/channel1_4_timer.c:319-328 | counter, enable, frequency and gate 0, volume 127, the given table and channel, waveform tag kept |
| TimerChannel.ResetIsSilent | Audio_Synthesizer_H533/Core/Src/channel1_4_timer.c:277-278 | a reset channel's update writes nothing and changes nothing |
| TimerChannel.FirstTickAfterOn | Audio_Synthesizer_H533/Core/Src/channel1_4_timer.c:286-289 | the first update after switching on puts the counter at the frequency |
| Channel1to4.Slot | Audio_Synthesizer_H533/Core/Src/channel1_4_timer.c:167-210 | CHANNEL1..CHANNEL4 select their own state; other values none |
| Channel1to4.CcrOf | Audio_Synthesizer_H533/Core/Src/channel1_4_timer.c:254-273 | CHANNEL1..CHANNEL4 write CCR1..CCR4 of TIM3; other values none |
| Channel1to4.Command | Audio_Synthesizer_H533/Core/Src/channel1_4_timer.c:73-252 | only the addressed channel changes, and a channel outside 1..4 changes nothing |
| Channel1to4.SetWaveform | Audio_Synthesizer_H533/Core/Src/channel1_4_timer.c:122-165 | SINE, TRIG and RAMP set tag and table; SQUARE sets the tag with the sine table; NOISE, unknown waves or channels change nothing |
| Channel1to4.UpdateAll | Audio_Synthesizer_H533/Core/Src/channel1_4_timer.c:305-311 | each channel steps independently; a disabled one neither changes nor writes; at most the counter changes, and for a running channel it ends within the mask |
| Channel1to4.Tick | Audio_Synthesizer_H533/Core/Src/channel1_4_timer.c:254-303 | a disabled channel neither changes nor writes; a write goes only to CCR(channel+1) of TIM3, and a channel value outside 1..4 never writes; only the counter changes |
| Channel1to4.Init | Audio_Synthesizer_H533/Core/Src/channel1_4_timer.c:353-356 | channel k gets channel value k and the sine table, with counter, frequency, gate and enable 0 and volume 127; the waveform tag is kept |
| Channel1to4.InitRoutesToOwnRegister | Audio_Synthesizer_H533/Core/Src/channel1_4_timer.c:254-273 | after initialisation an enabled, started channel k writes CCR(k+1) of TIM3 |
| Channel1to4.InitIsSilent | Audio_Synthesizer_H533/Core/Src/channel1_4_timer.c:319-328 | after initialisation an update changes nothing and writes nothing |
| Channel1to4.SquareStartsLow | Audio_Synthesizer_H533/Core/Src/channel1_4_timer.c:292-299 | a square channel started at a frequency below half the mask first writes 0 to its own register |
| Channel5to7.Slot | Audio_Synthesizer_H533/Core/Src/channel5_7_timer.c:60-79 | CHANNEL5, CHANNEL6 and the literal 2 select the three states; CHANNEL7 itself selects none |
| Channel5to7.CcrOf | Audio_Synthesizer_H533/Core/Src/channel5_7_timer.c:206-222 | the three channels write CCR1..CCR3 of TIM4 |
| Channel5to7.Command | Audio_Synthesizer_H533/Core/Src/channel5_7_timer.c:60-204 | only the addressed channel changes |
| Channel5to7.Channel7ValueIgnored | Audio_Synthesizer_H533/Core/Src/channel5_7_timer.c:72-77 | passing the CHANNEL7 value is a no-op for every control call |
| Channel5to7.SetWaveform | Audio_Synthesizer_H533/Core/Src/channel5_7_timer.c:102-132 | only NOISE is accepted, setting tag and noise table; other waves change nothing |
| Channel5to7.UpdateAll | Audio_Synthesizer_H533/Core/Src/channel5_7_timer.c:224-259 | each channel steps independently; a disabled one neither changes nor writes; a running one's counter ends within the mask |
| Channel5to7.Tick | Audio_Synthesizer_H533/Core/Src/channel5_7_timer.c:206-252 | a disabled channel neither changes nor writes; only CHANNEL5, CHANNEL6 and the literal 2 write, to CCR1..CCR3 of TIM4; only the counter changes |
| Channel5to7.Init | Audio_Synthesizer_H533/Core/Src/channel5_7_timer.c:300-303 | the three channels get CHANNEL5, CHANNEL6 and the literal 2 and the noise table, with counter, frequency, gate and enable 0 and volume 127 |
| Channel5to7.InitRoutesToOwnRegister | Audio_Synthesizer_H533/Core/Src/channel5_7_timer.c:206-222 | after initialisation each channel writes its own register CCR1..CCR3 of TIM4 |
| Channel5to7.InitIsSilent | Audio_Synthesizer_H533/Core/Src/channel5_7_timer.c:267-276 | after initialisation an update changes nothing and writes nothing |
| Channel1Timer.OutputShift | Src/channel1_timer.c:133 | the shift is 1..8 for volumes up to 127 (1 at 127), 0 for 128..143 and negative above |
| Channel1Timer.Advance | Src/channel1_timer.c:128-131 | the counter is (count + freq) modulo SAMPLE_FREQUENCY |
| Channel1Timer.Update | Src/channel1_timer.c:117-135 | disabled writes nothing; gate off writes ARR >> 1 (63); otherwise the counter advances modulo SAMPLE_FREQUENCY and the write is undefined iff the table is unset, the index is outside it or the shift is negative; a write is the sample divided by 2 to the power ((127 - vol) >> 4) + 1, so it stays within the 7-bit period and is half the sample at full volume |
| Channel1Timer.HalfShift | Src/channel1_timer.c:133-134 | a byte shifted right at least once fits the period and is at most half the byte |
| Channel1Timer.RunCount | Src/channel1_timer.c:128-131 | after n updates of a running channel the counter is count + n * freq modulo SAMPLE_FREQUENCY and nothing else has changed |
| Channel1Timer.PhaseSum | Src/channel1_timer.c:128-131 | one phase step followed by n - 1 more is n steps |
| Channel1Timer.Enable | Src/channel1_timer.c:71-75 | sets only the enable flag |
| Channel1Timer.Disable | Src/channel1_timer.c:76-80 | clears only the enable flag |
| Channel1Timer.SetWaveform | Src/channel1_timer.c:82-94 | the tag is always recorded; only SINE loads the table; nothing else changes |
| Channel1Timer.OnOff | Src/channel1_timer.c:96-105 | nonzero opens the gate and zeroes the counter; zero only closes the gate |
| Channel1Timer.SetVolume | Src/channel1_timer.c:107-110 | writes only the volume |
| Channel1Timer.SetFrequency | Src/channel1_timer.c:112-115 | writes only the frequency |
| Channel1Timer.Init | Src/channel1_timer.c:167-173 | counter, enable, frequency and gate 0, volume 127, the sine table loaded, tag kept |
| Channel1Timer.InitLoadsTable | Src/channel1_timer.c:82-94 | once initialised, no set_waveform call unloads the table |
| Channel1Timer.UpdateInPeriod | Src/channel1_timer.c:117-135 | with the table loaded and volume at most 127 an enabled channel always writes within the period |
| NoiseChannelF0.Init | Src/noise_channel.c:33-39 | counter, frequency and gate 0, volume 127 |
| NoiseChannelF0.OnOff | Src/noise_channel.c:67-78 | nonzero opens the gate and zeroes the counter; zero only closes the gate |
| NoiseChannelF0.SetFrequency | Src/noise_channel.c:85-88 | writes only the frequency |
| NoiseChannelF0.SetVolume | Src/noise_channel.c:95-98 | writes only the volume |
| NoiseChannelF0.DacValue | Src/noise_channel.c:122-125 | at most 4095 for volumes up to 127, 0 at volume 0 or sample 0, 4095 for sample 255 at volume 127 |
| NoiseChannelF0.Adjusted | Src/noise_channel.c:122 | the scaled sample is at most the sample up to volume 127, the sample at 127, and the floor of sample * vol / 127 |
| NoiseChannelF0.DacValueMonotone | Src/noise_channel.c:122-125 | a larger sample or volume never lowers the DAC value |
| NoiseChannelF0.Update | Src/noise_channel.c:105-126 | gate off writes 2048 and changes nothing; otherwise the counter is (count + freq) modulo 16384 and the DAC gets the scaled sample, undefined only past the table |
| NoiseChannelF0.UpdateWrites | Src/noise_channel.c:115-125 | with the full 16384-byte table a running channel always writes |
| NoiseChannelH5.Reset | Audio_Synthesizer_H533/Core/Src/noise_channel.c:163-170 | counter, gate and frequency 0, volume 127, waveform NOISE |
| NoiseChannelH5.SetWaveform | Audio_Synthesizer_H533/Core/Src/noise_channel.c:73-80 | only NOISE is recorded; anything else changes nothing |
| NoiseChannelH5.OnOff | Audio_Synthesizer_H533/Core/Src/noise_channel.c:87-98 | nonzero opens the gate and zeroes the counter; zero only closes the gate |
| NoiseChannelH5.SetVolume | Audio_Synthesizer_H533/Core/Src/noise_channel.c:104-107 | writes only the volume |
| NoiseChannelH5.SetFrequency | Audio_Synthesizer_H533/Core/Src/noise_channel.c:113-116 | writes only the frequency |
| NoiseChannelH5.StoredShift | Audio_Synthesizer_H533/Core/Src/noise_channel.c:142 | the uint8_t shift is 0..7 for volumes up to 127 and 248 or more above |
| NoiseChannelH5.Update | Audio_Synthesizer_H533/Core/Src/noise_channel.c:122-147 | gate off writes 2048 and changes nothing; otherwise the counter is below SAMPLE_FREQUENCY, the write is undefined iff past the table or volume above 127, and otherwise is the noise sample divided by 2 to the power (127 - vol) >> 4, so never above the sample and the sample itself at 127 |
| NoiseChannelH5.UpdateMonotoneInVolume | Audio_Synthesizer_H533/Core/Src/noise_channel.c:139-146 | a louder volume never gives a smaller DAC value |
| Bits.AndLow7 | Audio_Synthesizer_H533/Core/Src/midi.c:31-42 | masking a value with 0x7F is taking it modulo 128 |
| Bits.AndHighNibble | Audio_Synthesizer_H533/Core/Src/midi.c:29 | masking a byte with 0xF0 clears its low nibble |
| Bits.AndLow14 | Audio_Synthesizer_H533/Core/Src/channel_driver.c:563 | masking with SAMPLE_FREQUENCY_MASK is taking the value modulo 2^14 |
| Bits.ShiftRightIsDiv | Audio_Synthesizer_H533/Core/Src/channel1_4_timer.c:301 | a right shift by k is division by 2^k |
| Bits.ShiftRightAntitone | Audio_Synthesizer_H533/Core/Src/channel1_4_timer.c:301 | shifting by more never gives a larger value |

## Left out

- The UART drivers, the sample-timer callback plumbing, clock and GPIO setup, and the register configuration in `channel_timer_init`, `channel1_4_timer_init`, `channel5_7_timer_init` and `channel1_timer_init`: these are hardware I/O. Only their effect on the channel structs is modelled (`Init`).
- The CCER bit toggling in the enable and disable calls: a hardware side effect. Only the `enable` flag is modelled.
- `noise_channel_enable` and `noise_channel_disable` of both generations only start or stop the DAC through the HAL, so they are not modelled.
- The hardware writes (CCR, DAC, GPIO) are returned values, not effects on hardware.
- `HAL_GPIO_WritePin` through a pin mask used as a port pointer is recorded as an action. What such a write does to memory is not modelled.
- `setup_midi` and both `main.c` demo loops are hard-coded demonstrations, not logic.
- `channel_voice_on_off` is declared in channel_driver.h but never defined, so there is nothing to model.
- `channel_mode_messages_handler` has its whole body commented out. It neither reads nor consumes bytes, so it is modelled as nothing.
- The printf calls of the parsers are commented out.
- Concurrency between the receive interrupt, the sample interrupt and the foreground: the model is single-threaded.
- The contents of the wavetables, the envelope and modulation curves, `SAMPLE_RESOLUTION_MASK` and `TWO_SEMITONE_SCALAR` come from headers that are not part of this model. They are parameters, constrained only by `ChannelVoice.RomOk`: table lengths, 10-bit curve values, and a scalar below 2^31.
- ChannelVoice.ModTerm: the inner `int` product `modulation_base[i] * TWO_SEMITONE_SCALAR * (mod >> 7)` is computed without 32-bit overflow. Its overflow depends on the unseen table and scalar values, so the result is weaker than C only where that product would overflow.
- MidiStream.Scan: the model runs at most `steps` passes of the loop and reports `OutOfSteps` when the bound is reached. The C loop has no bound.
- MidiH533.NoteFrequency: `FREQ_C2 << octave_num` is taken as an unbounded product kept to 16 bits. C leaves shifts of 32 or more undefined, but the switch is only reached with `key_num` equal to 0, where the shift is 0.
- MidiF072.HandleAllLast: the MIDI record starts uninitialised, and only the note branches assign it. The model returns only the channel, key number and velocity of the last note message, or None. The other fields are never written in the returned copy.
- The `env` field of a voice is neither read nor written by the driver, and the ADSR never moves to RELEASE from a control call; both are kept as data only.
- The driver never installs the noise table, so a channel playing noise is excluded by `ChannelDriver.ChannelOk` rather than modelled.
- ChannelDriver.ResetChannel: for a voice count above 4 the reset loop writes past the voices array, so the model returns no channel. The clamp of `num_voices` to 4 is therefore never observable.
- TimerChannel.Update: the table entries are 16-bit. The fields `count`, `freq`, `vol`, `on_off` and `enabled` that `channel1_4_timer.c` and `channel5_7_timer.c` use exist only in the first generation's `channel_state_t`, which declares `waveform_data` as a byte pointer. The H533 header these files include declares the table as 16-bit but has none of these fields. The model follows the 16-bit tables (`sine_base`, `noise_base`) that the files point the channels at. A byte table is the special case whose entries are below 256, and every contract holds for it unchanged.
