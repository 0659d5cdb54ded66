# TRex stateless port, modelled in Dafny

This project models the per-port controller of the TRex stateless packet
generator, from `src/stateless/cp/trex_stateless_port.cpp`. It has these parts:

- **Port state machine** (`StatelessPort`). A `Port` class has the fields of
  `TrexStatelessPort`: port id, state, owner, stream count, statistics record
  and four bandwidth estimators. `StartTraffic` and `StopTraffic` update the
  state in place. The pure functions `StartOutcome` and `StopOutcome` specify
  them, and `StateName` is `get_state_as_string`. `PortState` has the three
  enumerators `Down`, `UpIdle` and `Transmitting`. It also has `Unrecognized`,
  which stands for any other value the C++ enum variable could hold. That is
  the case the `"unknown"` fallback exists for. No operation produces it, and
  `Port.Valid()` excludes it.
- **Handler generator** (`Port.GenerateHandler`). An 8-step loop appends one
  character of the 62-character alphabet per step. The values `rand()` would
  return are passed in as a sequence `draws`.
- **Bandwidth estimator** (`Bandwidth`). The `BWMeasure` class has the four
  fields `m_start`, `m_last_time_msec`, `m_last_bytes` and `m_last_result`.
  `Reset` and `Add` update them in place. The pure function `AddSample` on the
  `Sample` value specifies `Add`. `calc_MBsec` is computed over `real`.
- `UnsignedInt` holds the `uint8_t`, `uint32_t` and `uint64_t` types. It also
  holds their wrap-around subtractions: the time delta wraps modulo 2^32 and
  the byte delta modulo 2^64.

Inputs from outside the program are parameters:
- the clock reading of `os_get_time_msec()` (`nowMsec`, or one reading per
  estimator in `UpdateStats`);
- the tick frequency of `os_get_time_freq()` (`freq`);
- the successive results of `rand()` (`draws`);
- the driver's counters of `rte_eth_stats_get` (an `EthStats` value).

Behaviours of the code that the model keeps:
- `add` does not detect a counter that goes backwards: `size - m_last_bytes`
  wraps modulo 2^64 on `uint64_t`.
- Nothing is claimed about how uniformly the handler's characters are spread.
  Character i is `Alphanum[draws[i] % 62]`.
- All four rates come from `add` (lines 150-154), whose rate is computed by
  `calc_MBsec` (line 224), and the model keeps the units this gives. `m_tx_bps` and `m_rx_bps` come out in Mbit/s, not
  bit/s. `m_tx_pps` and `m_rx_pps` come out as 8·10⁻⁶ × packets per second,
  not packets per second.
- `add` measures the interval from the last recorded sample, not from the
  previous call (line 214). So two calls less than `freq` ticks apart can
  return different rates when the first of them was itself too soon. A
  too-soon call leaves nothing behind: its bytes are counted in the next
  recorded delta, because line 219 subtracts from the unchanged `m_last_bytes`.

## Model

| member | source | states |
|---|---|---|
| `UnsignedInt.Sub32` | src/stateless/cp/trex_stateless_port.cpp:213-218 | the `uint32_t` time delta: adding it back to the old time modulo 2^32 gives the new time; it is the plain difference when there is no wrap-around, and larger than the new time when there is |
| `UnsignedInt.Sub64` | src/stateless/cp/trex_stateless_port.cpp:219 | the `uint64_t` byte delta, with the same three properties modulo 2^64 |
| `Bandwidth.CalcMBsec` | src/stateless/cp/trex_stateless_port.cpp:199-203 | the rate is never negative, and rate × elapsed ticks = 0.000008 × bytes × ticks per second |
| `Bandwidth.Smooth` | src/stateless/cp/trex_stateless_port.cpp:224 | the smoothed rate lies halfway between the new rate and the previous estimate, so it is between them |
| `Bandwidth.AddSample` | src/stateless/cp/trex_stateless_port.cpp:205-226 | first sample: returns 0.0 whatever the size, sets started, and records the time and size. Started and fewer than `freq` ticks since the last sample (modulo 2^32): nothing changes and the cached rate is returned. Otherwise: the time and size are recorded, and the stored and returned rate is `Smooth(CalcMBsec(dt, dbytes), previous)`. The invariant (cleared until started, rate ≥ 0) is kept, and the return value is the stored estimate |
| `Bandwidth.TooSoonCallInvisible` | src/stateless/cp/trex_stateless_port.cpp:213-222 | after a too-soon call, the next call returns and records exactly what it would have without it, so the skipped bytes go into the next recorded delta |
| `Bandwidth.CachedAfterRecording` | src/stateless/cp/trex_stateless_port.cpp:205-226 | a call less than `freq` ticks after a call that recorded its sample (a first sample or an update) returns the same rate as that call |
| `Bandwidth.IntervalFromRecordedSample` | src/stateless/cp/trex_stateless_port.cpp:213-216 | the interval counts from the last recorded sample: a too-soon call at 600 and a call at 1100 (500 ticks later, `freq` 1000) return different rates, 0.0 and a positive one |
| `Bandwidth.BWMeasure.constructor` | src/stateless/cp/trex_stateless_port.cpp:188-190 | a new estimator is in the cleared state |
| `Bandwidth.BWMeasure.Reset` | src/stateless/cp/trex_stateless_port.cpp:192-197 | afterwards `started` is false and the time, byte and rate fields are 0 |
| `Bandwidth.BWMeasure.Add` | src/stateless/cp/trex_stateless_port.cpp:205-226 | the new fields and the returned rate are exactly those of `AddSample` on the old fields; the invariant is kept |
| `Bandwidth.OneSecondScenario` | src/stateless/cp/trex_stateless_port.cpp:205-226 | on a fresh estimator: the first add returns 0; 10^6 bytes one second later gives 0.5 × 8 Mbit/s = 4.0; a reading 10 ms after that returns the same 4.0 |
| `StatelessPort.StartOutcome` | src/stateless/cp/trex_stateless_port.cpp:51-66 | `Ok` exactly when the state was `UP_IDLE` and there are streams, and then the state is `TRANSMITTING`. `BAD_STATE_FOR_OP` exactly when the state was not `UP_IDLE`, because the state is tested first. `NO_STREAMS` exactly when it was `UP_IDLE` with zero streams. A refused start leaves the state unchanged |
| `StatelessPort.StartTwiceRefused` | src/stateless/cp/trex_stateless_port.cpp:54-62 | whenever a start succeeds, starting again from the state it left gives `BAD_STATE_FOR_OP` and changes nothing |
| `StatelessPort.StopOutcome` | src/stateless/cp/trex_stateless_port.cpp:68-75 | never leaves `TRANSMITTING`; `TRANSMITTING` becomes `UP_IDLE`; every other state is left as it was |
| `StatelessPort.StopIdempotent` | src/stateless/cp/trex_stateless_port.cpp:68-75 | stopping twice is stopping once |
| `StatelessPort.StateName` | src/stateless/cp/trex_stateless_port.cpp:86-101 | total on every state value, never empty; `"unknown"` exactly for a value outside the three enumerators |
| `StatelessPort.StateNameInjective` | src/stateless/cp/trex_stateless_port.cpp:86-101 | different states get different names |
| `StatelessPort.AlphanumIsAlnum` | src/stateless/cp/trex_stateless_port.cpp:120-123 | the alphabet has 62 characters (`sizeof(alphanum) - 1`), and a character is in it exactly when it is an ASCII digit or letter |
| `StatelessPort.Port.constructor` | src/stateless/cp/trex_stateless_port.cpp:41-44 | state `UP_IDLE`, owner cleared, port id as given, empty stream table, zeroed statistics, four fresh cleared estimators |
| `StatelessPort.Port.StartTraffic` | src/stateless/cp/trex_stateless_port.cpp:51-66 | the return code and the new state are those of `StartOutcome` on the old state and the stream count; the port invariant is kept |
| `StatelessPort.Port.StopTraffic` | src/stateless/cp/trex_stateless_port.cpp:68-75 | the new state is `StopOutcome` of the old one; the port invariant (state among the three enumerators, four distinct valid estimators) is kept |
| `StatelessPort.Port.StateAsString` | src/stateless/cp/trex_stateless_port.cpp:86-101 | never empty, and `"unknown"` exactly when the state is outside the three enumerators, so a port that keeps `Valid()` never answers `"unknown"` |
| `StatelessPort.Port.GenerateHandler` | src/stateless/cp/trex_stateless_port.cpp:116-131 | exactly 8 characters, character i is `alphanum[rand_i % 62]`, and every character is an ASCII digit or letter |
| `StatelessPort.Port.UpdateStats` | src/stateless/cp/trex_stateless_port.cpp:137-156 | needs only the estimator invariant, not the state; the four totals are the driver's counters verbatim; each estimator advances as `AddSample` on its own counter and clock reading; each rate field is that estimator's new estimate, so it is never negative; the error count and the port's other fields are unchanged |
| `StatelessPort.StartStopScenario` | src/stateless/cp/trex_stateless_port.cpp:41-75 | new port is `UP_IDLE`; with 5 streams the first start succeeds, the second gives `BAD_STATE_FOR_OP`, and a stop returns it to `UP_IDLE` |
| `StatelessPort.NoStreamsScenario` | src/stateless/cp/trex_stateless_port.cpp:52-60 | a new port without streams answers `NO_STREAMS` and stays `UP_IDLE` |

## Left out

- `encode_stats` (lines 163-179): it writes into a `Json::Value` from an external JSON library. The `PortCounters` record holds the nine fields it writes.
- `get_properties` (lines 103-109): it returns two constant strings and has no logic.
- `get_stats` and `get_stream_table` (lines 81-83, 158-161): accessors. The `stats` and `streamCount` fields are read directly.
- The body of `clear_owner` is not part of this model. The constructor takes it to leave the port with no owner (`NoOwner`).
- The stream table is modelled only by its size, `streamCount`. It is zero after construction, and clients set it directly.
- `DOWN` is entered only by external link events, which are not part of this model. Clients may assign `state` directly.
- Clock, tick frequency, `rand()` and the driver's counter read are parameters, as listed above. Their global state is not modelled.
- `rand()` is bounded by `RAND_MAX`. The model accepts any natural number as a draw.
- Locking and concurrency: the source has none.
- Bandwidth.CalcMBsec: computed over exact reals. IEEE-754 rounding of the `double` conversions and products is not modelled.
- Bandwidth.AddSample: requires `freq > 0`, because `os_get_time_freq()` is a positive constant tick rate. With `freq == 0` the source behaves as follows. The gate at line 214 never holds, since an unsigned value is never below 0, so every started call updates. The rate is `0.0` when `dtime_msec > 0`, and NaN (`0.0 / 0.0`) when `dtime_msec == 0`. `real` cannot express NaN. The first-sample branch (lines 206-211) never reads the frequency.
- Bandwidth.BWMeasure.Add: requires `freq > 0`, for the same reason as `AddSample`.
- StatelessPort.Port.UpdateStats: requires `freq > 0`, for the same reason as `AddSample`.
- In the source the four estimators live inside the statistics object `m_stats` (`m_stats.m_bw_tx_bps` and so on, lines 150-154). The model keeps them as four fields of `Port` itself. The constructor's zeroed statistics assume the constructor of `TrexPortStats`, whose header is not part of this model.
- `m_last_time_msec` is taken to be `uint32_t`, like `ctime`. Its declaration is in a header that is not part of this model.
