# CloudWatch Logs log target

A model of the Yii log target that ships application log messages to an AWS
CloudWatch Logs stream (`src/Target.php`). The target is a class whose public
properties hold the configuration (`logGroup`, `region`, `key`, `secret`,
`logStream`) and whose private state is the client and the upload sequence
token. Three operations are modelled:

- `Init` checks the configuration in a fixed order (group, then region, then
  stream name) and raises one configuration error for each missing setting.
  When no stream name is configured it falls back to the instance id from the
  EC2 metadata lookup. It builds the client parameters, adding credentials
  only when both key and secret are set, and then refreshes the token.
- `RefreshSequenceToken` asks describeLogStreams for the streams whose name
  starts with the stream name. It scans the answer in order and keeps the
  `uploadSequenceToken` of every record whose name is exactly the stream name
  and that has a token, so the last such record wins.
- `Export` turns the buffered messages, in order, into events
  `{message, timestamp}` and sends them with the group and stream names. It
  then stores the response's `nextSequenceToken`.

Files: `wrappers.dfy` (Option, Result, Outcome), `php.dfy` (PHP's `empty()` on
a string-or-null value: true for null, `""` and `"0"`), `cloudwatchlogs.dfy`
(the data model, the specification functions, the lemmas and the `Target`
class).

The network and the clock are inputs of the model:

- The answer of the instance-metadata fetch is an `Option<string>` parameter.
  `None` stands for `false`; any string, even `""`, counts as success, as in
  the code.
- The describeLogStreams and putLogEvents answers are parameters.
- The clock readings are a `timestamps` parameter with one reading per
  message, because the code calls `time()` once per message.
- The requests the target sends are recorded in the fields `lastDescribe`
  and `lastPut`. The constructed client is represented by its parameters
  (`client: Option<ClientParams>`).

The guard that decides whether the token is sent reads `$this->sequenzeToken`
(src/Target.php:103). That property is misspelled and never assigned, and
`empty()` of an undefined property is true. The model keeps this literal
behaviour: `Export` passes `MisspelledTokenProperty` (null) to the `empty()`
test, so the payload never carries a sequence token. `Request` takes the value
the guard reads as a parameter. `TokenGuardSendsToken` states what a guard
reading the real token would send.

What the code does not do, the model does not do either:

- Timestamps are `time()` readings in seconds, although CloudWatch Logs
  expects milliseconds; they are not converted.
- Events are not sorted by timestamp.
- An empty buffer is not skipped: it still sends a request.
- The token is not re-fetched before each export, and a rejected token is not
  retried.

## Model

| member | source | states |
|---|---|---|
| Cloudwatchlogs.ResolveStream | src/Target.php:48-64 | group error iff the group is empty; region error iff the group is set and the region empty; instance-id error iff both are set, no stream is configured and the lookup failed; otherwise success with the configured stream name, or else the looked-up instance id |
| Cloudwatchlogs.ClientParamsFor | src/Target.php:66-76 | the parameters always carry the region and version `latest`; they carry credentials iff key and secret are both non-empty, and then exactly those two values |
| Cloudwatchlogs.SelectToken | src/Target.php:123-127 | the scan's result is the starting token or the token of a record named exactly like the stream that has one; `SelectTokenLastCarrier` pins down which |
| Cloudwatchlogs.SelectTokenLastCarrier | src/Target.php:123-127 | with no record named exactly like the stream and carrying a token, the scan leaves the token unchanged; otherwise it yields the token of such a record with no later such record (the last one wins) |
| Cloudwatchlogs.SelectTokenSnoc | src/Target.php:124-126 | a record appended to the list replaces the token exactly when it is named like the stream and has a token; otherwise the result is that of the shorter list |
| Cloudwatchlogs.SelectTokenIgnoresPrefixMatches | src/Target.php:118-127 | records of the prefix lookup whose name differs from the stream name have no effect: scanning only the exact-name records gives the same token |
| Cloudwatchlogs.SelectTokenConcat | src/Target.php:123-127 | the scan is a left fold: scanning `a + b` equals scanning `b` from the token left by scanning `a` |
| Cloudwatchlogs.ExactName | src/Target.php:124 | a record is kept iff it comes from the input and carries the stream name exactly; every such record of the input is kept |
| Cloudwatchlogs.ExactNameConcat | src/Target.php:123-124 | filtering keeps order: the filter of `a + b` is the filter of `a` followed by the filter of `b` |
| Cloudwatchlogs.Events | src/Target.php:88-95 | one event per buffered message, same length and order, each holding the message unchanged and that message's clock reading |
| Cloudwatchlogs.Request | src/Target.php:97-105 | the payload carries the given events, group and stream names; the token is sent when the guard value is non-empty, and a token in the payload is always the tracked one and only under a non-empty guard |
| Cloudwatchlogs.WrittenGuardOmitsToken | src/Target.php:103-105 | with the guard as written, the payload carries no sequence token whatever token is held |
| Cloudwatchlogs.TokenGuardSendsToken | src/Target.php:103-105 | a guard reading the tracked token would send it exactly when it is non-empty |
| Cloudwatchlogs.Target.constructor | src/Target.php:10-43 | the configured properties as given; no client, no token, empty buffer, nothing sent |
| Cloudwatchlogs.Target.Init | src/Target.php:48-81 | on a configuration error: that error, and nothing changes (in particular no client is built); on success: the stream name is resolved, the client is built with `ClientParamsFor`, describeLogStreams is asked for the group and the stream prefix, and the token is `SelectToken` of the answer |
| Cloudwatchlogs.Target.RefreshSequenceToken | src/Target.php:116-128 | the describe request names the group and the stream as prefix; the token afterwards is `SelectToken` of the answer starting from the old token |
| Cloudwatchlogs.Target.Export | src/Target.php:86-109 | the payload holds `Events` of the buffer and the clock readings, the configured group and stream names, and no sequence token; afterwards the token is the response's `nextSequenceToken` whatever it was before |

## Left out

- Building the CloudWatch Logs client and the describeLogStreams and putLogEvents calls (src/Target.php:78, 107, 118-121): they belong to a foreign network library. Their answers are parameters and the requests are recorded in fields.
- The metadata fetch with `file_get_contents` (src/Target.php:58) is I/O. Its result is the `instanceId` parameter.
- `time()` (src/Target.php:93) is the system clock. Its readings are the `timestamps` parameter.
- The logging framework's base class: how messages are collected, filtered and buffered, and what one buffered message holds. A message is an opaque value of type `M`.
- Exceptions thrown by the network calls: they are not modelled.
- The texts of the configuration exceptions (src/Target.php:50, 54, 62): the errors are told apart by their `ConfigError` constructor only.
- Pagination of describeLogStreams: the code reads only the first page of the answer, and the model does the same.
- Request: a `sequenceToken` key set to null and an absent key are the same value (`None`) in the model. The guard as written never sets the key, so this makes no difference here.
- Target.Export: requires an initialised target (a client, a group and a stream). PHP would fail with a fatal error when calling `putLogEvents` on a null client.
