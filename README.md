# Yeelight LAN client: command builder and job queue

A model of the command-building core of the YeePHP client for Yeelight
smart lights. The client never talks to the light while commands are being
built: each fluent call (`setColor`, `setBrightness`, `toggle`, …) validates
its arguments and appends a job `{id, method, params}` to a queue, and
`commit` then writes the jobs to the light one per line, reads one reply line
per job and reports an aggregate verdict. `getProp` is the one synchronous
read: it builds a `get_prop` job and sends it at once, outside the queue.

The repository keeps three revisions of this client, and all three are
modelled, each as a class whose `jobs` field the methods update:

- `YeeClient.YeePHP` (src/YeePHP.php), the newest. Parameters are validated
  and normalised first (module `YeeParams`): brightness is clamped into
  [0,100]; a colour value is range-checked by colour type (`ct` 1700..6500,
  `rgb` 0..16777215, `hsv` 0..359); an HSV saturation defaults to 50 and is
  otherwise clamped; the fade effect must be `smooth` or `sudden`, defaults
  to `smooth`, a `sudden` effect drops any delay and a `smooth` one needs a
  delay in [30,3000] or gets 300. Ids are 0, 1, 2, … (the queue length at
  creation), null parameters are dropped, `commit` is true if ANY job
  succeeded and always empties the queue once every job was sent.
- `LightClient.Light` (src/Light.php) and `YeelightClient.Yeelight`
  (src/Yeelight.php), the older near-duplicates. A smaller allow-list, no
  validation or clamping of the command arguments, ids 1, 2, 3, …, `commit`
  true only if EVERY job succeeded, and the queue is never cleared, so a
  second commit resends everything. Light's constructor also remembers a
  colour and a brightness clamped into [0,100].

The light is an oracle. `commit` takes one `Reply` per queued job: `Offline`
(the liveness check before the write threw: in Light and Yeelight that is
`feof` finding the socket closed, src/Light.php:166-167; for YeePHP see
"## Left out"), or `Read(line)` with `line` either `NoLine` (nothing, or a falsy line, was
read) or `Received(hasError, result)` (the JSON object read back: whether it
has an `error` key, and its `result` list if it has one). Besides the verdict,
`commit` returns `sent`, the jobs in the order they were written. The IP
validator and the TCP connect are the boolean parameters `ipIsValid` and
`connects` of the `Open` factories that stand for the PHP constructors.

Where the code departs from the Yeelight protocol (which reports a failed
command as an `error` object and tags every reply with the request's id), the
model follows the code:

- In src/YeePHP.php an error reply decodes to `null`, and `commit` counts
  `null` as success; so does a missing line. A job fails only when the light
  answers without an error and its first result is `""` or `"0"`.
- The `setPower` guard `!$power === 'on' || !$power === 'off'` compares a
  boolean with a string and never fires; every power string is queued
  (`YeeParams.PowerGuardFires`).
- `getProp` accepts only `bright`, `rgb`, `name` and `power`, does not check
  the length of the result list, and gives its job the current queue length
  as id: no queued job has that id yet, but the next job queued before the
  commit gets the same one.
- In src/YeePHP.php a device that drops the connection during a commit
  makes `fgets` return false, a missing line (`Read(NoLine)`), which counts
  as success; the queue is still emptied. Only an exception from the
  liveness check would skip the reset and keep the queue. The older
  revisions never clear it anyway.
- Replies are matched to jobs by position; the ids in replies are not read.

## Model

| member | source | states |
|---|---|---|
| `Protocol.ClampPercent` | src/YeePHP.php:206-209 | the brightness clamp is `max(0, min(100, a))`: in [0,100] and the identity inside it |
| `Protocol.FilterNulls` | src/YeePHP.php:405 | the kept parameters contain no null and are exactly the non-null values of the input |
| `Protocol.FilterNullsAppend` | src/YeePHP.php:405 | filtering distributes over concatenation, so the kept values keep their order |
| `Protocol.FilterNullsKeepsNonNull` | src/YeePHP.php:405 | a parameter list without nulls is left unchanged |
| `Protocol.FilterNullsLength` | src/YeePHP.php:405 | exactly the nulls are dropped: the kept list is as long as the count of non-null values |
| `YeeParams.ColorMethod` | src/YeePHP.php:493-515 | each colour type maps to an allowed command (`set_ct_abx`, `set_rgb`, `set_hsv`) |
| `YeeParams.Saturation` | src/YeePHP.php:433-440 | an HSV saturation is 50 when absent and otherwise clamped into [0,100] |
| `YeeParams.CheckColorValue` | src/YeePHP.php:417-447 | accepted iff the value is in its type's range (ct 1700..6500, rgb 0..16777215, hsv 0..359); an unknown type throws; ct/rgb options come back unchanged, hsv ones with the defaulted or clamped saturation |
| `YeeParams.CheckFadeParams` | src/YeePHP.php:457-480 | accepted iff the effect is absent or smooth/sudden and a smooth delay, if given, is in [30,3000]; the effect defaults to smooth; sudden has no delay; smooth has the given delay or 300 |
| `YeeParams.ColorJob` | src/YeePHP.php:490-519 | an unknown type throws; otherwise the type's command: the value first, the effect (null when absent) second to last and the delay, or 0 when absent, last; for hsv the saturation (null when absent) second |
| `YeeParams.SetColorRequest` | src/YeePHP.php:186-199 | the type defaults to rgb; succeeds iff type, value and fade are all valid, with the error of the first failing check; the command is `[value, effect, delay]` (`[value, sat, effect, delay]` for hsv) with no nulls, and a sudden effect always sends delay 0 |
| `YeeParams.PowerGuardFires` | src/YeePHP.php:235-236 | the `setPower` guard is false for every string, so no power value is rejected |
| `YeeClient.JobArray` | src/YeePHP.php:397-407 | a method outside the nine-method allow-list throws; otherwise the id equals the number of queued jobs and the params are the non-null ones in order |
| `YeeClient.Decode` | src/YeePHP.php:359-373 | definition; its meaning is stated by `YeeClient.JobSucceeded` and `YeeClient.YeePHP.GetProp` |
| `YeeClient.PropString` | src/YeePHP.php:321-322 | definition; its meaning is stated by `YeeClient.YeePHP.GetProp` |
| `YeeClient.JobSucceeded` | src/YeePHP.php:265-268 | on the raw reply, through the decode step of src/YeePHP.php:359-373 (`result[0]` of an error-free reply, else null): a job fails only when the light answered without error and its first result is `""` or `"0"`; error replies and missing lines count as success |
| `YeeClient.YeePHP.Open` | src/YeePHP.php:96-107 | an invalid IP throws, then a failed connect throws; otherwise a fresh client with an empty queue |
| `YeeClient.YeePHP.CreateJob` | src/YeePHP.php:383-386 | a disallowed method throws and leaves the queue alone; otherwise exactly one job is appended with id = old queue length, and earlier jobs are untouched |
| `YeeClient.YeePHP.Toggle` | src/YeePHP.php:176-181 | appends `toggle` with no params and returns the same object |
| `YeeClient.YeePHP.SetColor` | src/YeePHP.php:186-199 | an invalid colour request throws and appends nothing; a valid one appends exactly its command and returns the same object |
| `YeeClient.YeePHP.SetBrightness` | src/YeePHP.php:204-218 | appends exactly one `set_bright` job `[max(0,min(100,a)), 'smooth', 500]` and returns the same object |
| `YeeClient.YeePHP.SetName` | src/YeePHP.php:223-228 | appends `set_name` with the name as its one parameter |
| `YeeClient.YeePHP.SetPower` | src/YeePHP.php:233-245 | appends `set_power` `[power, 'smooth', 300]` for any string |
| `YeeClient.YeePHP.SetDefault` | src/YeePHP.php:250-255 | appends `set_default` with no params |
| `YeeClient.YeePHP.Commit` | src/YeePHP.php:261-274 | sends the jobs in insertion order; true iff some job succeeded (false for an empty queue); the queue is empty afterwards, also when the device dropped the connection (missing lines); an `Offline` reply throws after sending the jobs before it and keeps the queue; ids stay equal to positions |
| `YeeClient.YeePHP.GetProp` | src/YeePHP.php:313-325 | a prop outside {bright, rgb, name, power} throws and sends nothing; otherwise one `get_prop` job with id = queue length is sent; the result is `result[0]` of an error-free reply unless that is `""` or `"0"`, and `''` for those, for an error reply and for a missing line (also a dropped connection); the queue is not modified |
| `YeeClient.ColorThenBrightness` | tests/LightTest.php:55-63 | chaining setColor(0xFF8888) and setBrightness(100) and committing against `["ok"]` replies returns true, sends ids 0 and 1 in order and leaves the queue empty |
| `Revisions.ErrorReplyVerdicts` | src/YeePHP.php:362-368 | an `error` reply fails a job under the older rule (src/Light.php:192-200) but succeeds under YeePHP's, where it decodes to null; no reply fails under both; the rules differ otherwise only on an error-free first result `""` or `"0"` |
| `LegacyQueue.RequestSucceeded` | src/Light.php:177-203 | definition; its meaning is stated by `LightClient.Light.Commit`, `YeelightClient.Yeelight.Commit` and `Revisions.ErrorReplyVerdicts` |
| `LightClient.Light.constructor` | src/Light.php:49-58 | the stored brightness is the given one clamped into [0,100]; the queue starts empty |
| `LightClient.Light.Open` | src/Light.php:39-62 | an invalid IP throws, then a failed connect throws; otherwise a fresh light with the clamped brightness |
| `LightClient.Light.CreateJob` | src/Light.php:212-222 | a method outside the five-method allow-list throws and leaves the queue alone; otherwise appends one job with id = count + 1, so ids run 1..n, earlier jobs untouched |
| `LightClient.Light.SetColor` | src/Light.php:106-115 | appends `set_rgb` `[c, 'smooth', 500]` with no range check and returns the same object |
| `LightClient.Light.SetBrightness` | src/Light.php:121-130 | appends `set_bright` `[a, 'smooth', 500]` with no clamping and returns the same object |
| `LightClient.Light.Commit` | src/Light.php:135-146 | sends every job in order, even after a failed one; true iff no reply carries an `error` key, a missing line counting as success (src/Light.php:177-203), so true for an empty queue; the queue is not modified |
| `YeelightClient.Yeelight.Open` | src/Yeelight.php:34-48 | an invalid IP throws, then a failed connect throws; otherwise a fresh client with an empty queue |
| `YeelightClient.Yeelight.CreateJob` | src/Yeelight.php:198-208 | a method outside the five-method allow-list throws and leaves the queue alone; otherwise appends one job with id = count + 1, earlier jobs untouched |
| `YeelightClient.Yeelight.SetColor` | src/Yeelight.php:92-101 | appends `set_rgb` `[c, 'smooth', 500]` unchecked and returns the same object |
| `YeelightClient.Yeelight.SetBrightness` | src/Yeelight.php:107-116 | appends `set_bright` `[a, 'smooth', 500]` unclamped and returns the same object |
| `YeelightClient.Yeelight.Commit` | src/Yeelight.php:121-132 | the conjunction over the queue, in order, of "the reply has no `error` key" (a missing line counts as success, src/Yeelight.php:163-189), vacuously true when empty; the queue is not modified |
| `YeelightClient.CommitTwice` | src/Yeelight.php:121-132 | two commits in a row send the same jobs, because the queue is not cleared; one error reply makes a commit false |

## Left out

- Socket I/O (`fsockopen`, `fwrite`, `fflush`, `fgets`, `fclose`, `feof`, `socket_get_status`, `stream_set_blocking`, `usleep`): replaced by the reply oracle; `connect`, `disconnect`, `__destruct`, `checkIsOnline`, `isConnected` and `isOnline` are plumbing around it (a socket that the liveness check finds closed is the `Offline` reply).
- JSON encoding and decoding: jobs and replies are datatypes. A reply line that is not valid JSON is not modelled, since what PHP then does depends on its version.
- `filter_var(..., FILTER_VALIDATE_IP)`: a foreign validator, whose verdict is the `ipIsValid` parameter of `Open`.
- `getBrightness`, `getColor` and `isOn` of YeePHP: the class as written does not satisfy `YeePHPInterface` (it lacks `startColorFlow`, src/Interfaces/YeePHPInterface.php:83; its `getBrightness(): string` and `getColor(): string` clash with the interface's `getBrightness(): int` and `getColor(string $type): array`, :43 and :51), so PHP refuses to declare it; the model describes the method bodies. Read on their own, as written they always throw a TypeError under the file's `strict_types=1`, since `getBrightness`/`getColor` pass `getProp`'s string to `dechex`, which takes an int, and `isOn` returns that string from a `bool` method; this is not modelled. `getName` returns `getProp('name')` unchanged (see `YeeClient.YeePHP.GetProp`). `getIP` and `getPort` are plain getters; Light's and Yeelight's `isOn` are empty.
- The `var_dump` debug output in `makeRequest`.
- `startColorFlow`: declared in src/Interfaces/YeePHPInterface.php but implemented nowhere, so the flow-expression encoder has no code to model.
- Device discovery (src/Net/Discovery.php), src/Net/Socket.php, src/Light/Light.php and src/Light/LightProperties.php are not part of this model.
- `Protocol.FilterNulls`: reads the filtered array as a list. PHP's `array_filter` keeps the original keys, so a null dropped from the middle would make `json_encode` write an object rather than a list; with JSON left out, this is not captured.
- `YeeParams.SetColorRequest`: the `$params` options are a record of the four keys the code reads (`type`, `sat`, `effect`, `delay`) with integer `sat`/`delay` and string `type`/`effect`; PHP's loose comparisons on values of other types are not modelled.
- `YeeClient.Decode`: the elements of a reply's `result` list are strings (a non-string first element would violate `makeRequest`'s `?string` return type under strict types).
- The constructors' default arguments are not modelled: port 55443 in all three revisions, and colour 0xFFFFFF and brightness 100 in Light; the `Open` factories take every argument explicitly.
- `LightClient.Light.constructor`: keeps the colour as the given integer; PHP stores its decimal text in the string-typed field.
- `YeeClient.YeePHP.Commit`: YeePHP's liveness check (src/YeePHP.php:334-335) compares `socket_get_status`, which returns a non-empty array for every open stream, with `[]`, so it never throws; a remote close is `Read(NoLine)` and the queue is still emptied. In YeePHP `Offline` stands only for a socket already closed by `disconnect()` (src/YeePHP.php:279-286), where `socket_get_status` itself fails at the first job; the model still allows `Offline` at any position and so admits a non-empty sent prefix that YeePHP cannot produce.
- `YeeClient.YeePHP.GetProp`: as for `Commit`, `Offline` stands only for a socket already closed by `disconnect()`.
- `YeeClient.YeePHP.Commit`, `LightClient.Light.Commit`, `YeelightClient.Yeelight.Commit`: take exactly one reply per queued job.
