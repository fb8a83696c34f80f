# Stream metrics of the godspeed benchmark

This project models the measuring part of `run_benchmark` in `benchmark.py`.
The benchmark sends one streaming chat-completion request and walks the
response line by line. A line counts as one token when it is non-empty, starts
with `data: ` and is not the sentinel `data: [DONE]`. The first counted line
fixes the first-token time. After the loop the benchmark computes:

- the total time;
- the latency, i.e. the time to the first token;
- the generation time;
- the tokens per second.

Two fallbacks apply when no token was seen. Any exception from the request or
from the loop ends the run with no metrics.

The model is a pure fold over the lines:

- `Stream` classifies lines and folds them into a `Tally`, which holds
  `token_count` and `first_token_time`. It also states what the fold must
  compute in terms of positions in the stream. `ScanStream` is the loop as
  written, with its early return.
- `Metrics` holds the arithmetic, with Python's truthiness test on
  `first_token_time`.
- `Benchmark` puts the two together as `RunBenchmark`.

Times are inputs of type `real`: the dispatch time, each line's processing
time and the end time. Nothing reads a clock. The HTTP exchange is also an
input, a `Reply`. Either the request failed (`Refused`), or the body was opened
as a sequence of items. An item is a decoded line, or a `Fault` that stands
for an exception raised while reading or decoding a line.

Three behaviours of the code are easy to miss; the model keeps them:

- the sentinel is skipped but does not end the loop;
- every `data: ` line other than the sentinel counts as a token, including
  malformed frames and frames with no text;
- no response text is accumulated.

`first_token_time` is set under an `is None` test but read under a truthiness
test, so a first token at time `0.0` would read as "no token".
`Metrics.TruthinessAgreesWithNoneTest` shows that this cannot change any metric
when the clock is monotone and never negative.

## Model

| member | source | states |
|---|---|---|
| Stream.IsToken | benchmark.py:28-30 | a decoded line is counted iff it starts with `data: ` and is not exactly `data: [DONE]` (the `if line:` emptiness test is implied by the prefix test) |
| Stream.Step | benchmark.py:28-35 | a line that is empty, lacks the `data: ` prefix or is the sentinel leaves count and first time unchanged; a counted line adds one to the count; the first time is set only by the first counted line and never overwritten; "first time recorded iff count > 0" is preserved |
| Stream.Scan | benchmark.py:23-41 | the loop yields nothing exactly when some item raises (before or after the sentinel); otherwise the count grows by at most one per line and an already recorded first time survives the whole stream |
| Stream.DescribesSnoc | benchmark.py:30-35 | one loop step on a line appended to a described fault-free prefix keeps the position-based description: the count becomes the number of counted positions of the longer stream, and the first time stays that of the first counted position (or becomes the new line's time when it is the first counted one) |
| Stream.ScanDescribes | benchmark.py:20-35 | on a fault-free stream the fold's count is the number of positions holding a counted line, and the first time is absent iff there is none, else the time of the first counted position |
| Stream.ScanAppend | benchmark.py:27-35 | the loop over `a + b` is the loop over `a` continued over `b` from the tally `a` left (a fault in `a` ends it) |
| Stream.SkippedLineIsInert | benchmark.py:28-30 | removing an uncounted line from any position of the stream does not change the outcome |
| Stream.SentinelDoesNotStop | benchmark.py:27-30 | the sentinel is skipped and lines after it are still counted, exactly as if it were absent |
| Stream.IsTokenCharacterization | benchmark.py:28-30 | every counted line is at least as long as the `data: ` prefix, so the `if line:` emptiness test never excludes a line the prefix test admits |
| Stream.ClassifierExamples | benchmark.py:28-30 | the empty line, the sentinel, `data:x` and `event: ping` are skipped; `data: `, a malformed frame and `data: [DONE] ` are counted |
| Stream.ScanStream | benchmark.py:19-41 | the imperative loop returns nothing iff some item raises, and otherwise the count of counted positions and the time of the first of them, agreeing with the fold |
| Metrics.Compute | benchmark.py:45-51 | total time is end minus start and always equals latency plus generation time; without a (truthy) first time latency is 0 and generation time is the total; tps times generation time is the count when generation time is positive, tps is 0 otherwise, and tps is never negative; latency and generation time are non-negative when the first time lies between start and end |
| Metrics.ComputeSeen | benchmark.py:48-50 | reference reading of the fallbacks with `is not None` tests instead of the truthiness tests the code uses: with no first time latency 0 and generation time `end - start`, otherwise latency `first - start` and generation time `end - first`; the same guarded rate |
| Metrics.TruthinessAgreesWithNoneTest | benchmark.py:48-50 | with a clock that starts at or after 0 and a first time not before the start, the truthiness tests give the same metrics as `is not None` tests |
| Metrics.NoTokenFallbacks | benchmark.py:46-51 | with no token, latency 0, generation time and total time both `end - start`, and rate 0 |
| Metrics.RateIsCountOverGenTime | benchmark.py:51 | the rate is count divided by generation time when that is positive; zero tokens give rate 0; the rate is positive iff both count and generation time are |
| Benchmark.RunBenchmark | benchmark.py:19-51 | no metrics exactly when the request fails or the loop raises; otherwise total time `end - start` split exactly into latency and generation time, and a non-negative rate |
| Benchmark.TokensAreCountedLines | benchmark.py:21-51 | a fault-free run reports as token count the number of counted lines, and with none reports latency 0, generation time equal to the total, and rate 0 |
| Benchmark.MonotoneRunMetrics | benchmark.py:46-50 | under a monotone clock starting at or after 0, a run with a token reports latency from dispatch to the first counted line and generation time from it to the end, both non-negative; that the first token time is not after any later line is part of the monotone-clock assumption, restated here for the first counted position |
| Benchmark.FaultAnywhereYieldsNothing | benchmark.py:23-41 | instance of `RunBenchmark`'s first ensures: a failed request, or an exception at any position of the stream (before or after the sentinel), returns before the calculations with no metrics |
| Benchmark.SentinelExample | benchmark.py:27-35 | a frame, an empty line, the sentinel, an `event:` line and another frame give two tokens, the first time being the first frame's |

## Left out

- The HTTP request, `raise_for_status`, `iter_lines` and UTF-8 decoding (benchmark.py:24-29) are not modelled. They appear as the `Reply` input: `Refused` for a failed request, and `Fault` items for exceptions while reading or decoding. Only exceptions derived from `Exception` are caught and printed (benchmark.py:39-41); `KeyboardInterrupt` and `SystemExit` propagate out of `run_benchmark` instead. The model maps both kinds to `None`, i.e. no metrics, and does not distinguish them.
- `time.time()` is replaced by real-valued parameters. IEEE floating-point rounding is not modelled.
- Printing is not modelled: the header, the dots, the error message and the results block (benchmark.py:10-11, 37, 40, 53-58).
- The request payload and the `API_URL` and `PROMPT` constants are not modelled, because the response is given as an input.
- main.py is not part of this model. It holds the engine process start and shutdown, the async proxy with its error payloads, and the byte pass-through generator. These are process management and network I/O, with no logic of their own beyond relaying bytes unchanged.
- The benchmark code has no JSON frame parsing, response-text accumulation, baseline storage, speedup, similarity check or acceptance-rate prompt, so none of these is modelled.
