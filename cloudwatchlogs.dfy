/** A log target that ships buffered application log messages to a CloudWatch
    Logs stream: configuration checks at start-up, the lookup of the stream's
    upload sequence token, and the putLogEvents payload built on every export.
    The remote service, the instance metadata endpoint and the clock are not
    modelled; their answers are parameters of the operations, and the requests
    the target sends are recorded in fields. */
module Cloudwatchlogs {
  import opened Wrappers
  import opened Php

  // ---------------------------------------------------------------------------
  // Data model
  // ---------------------------------------------------------------------------

  /** The three configuration errors `init` can raise. */
  datatype ConfigError = MissingLogGroup | MissingRegion | UnknownInstanceId

  /** Static credentials handed to the client. */
  datatype Credentials = Credentials(key: string, secret: string)

  /** The parameter array the CloudWatch Logs client is constructed with;
      the client itself is represented by these parameters. */
  datatype ClientParams = ClientParams(region: string, version: string, credentials: Option<Credentials>)

  /** The API version every client is built for. */
  const ApiVersion: string := "latest"

  /** The describeLogStreams request: streams of a group whose names start with a prefix. */
  datatype DescribeLogStreamsRequest = DescribeLogStreamsRequest(logGroupName: string, logStreamNamePrefix: string)

  /** One stream record of a describeLogStreams response; the token is absent
      (not `isset`) for a stream that was never written to. */
  datatype LogStream = LogStream(logStreamName: string, uploadSequenceToken: Option<string>)

  /** One event of a putLogEvents payload; the message is passed on as it was buffered. */
  datatype LogEvent<M> = LogEvent(message: M, timestamp: int)

  /** The putLogEvents payload; `sequenceToken == None` means the key is not set. */
  datatype PutLogEventsRequest<M> =
    PutLogEventsRequest(logEvents: seq<LogEvent<M>>, logGroupName: string, logStreamName: string, sequenceToken: Option<string>)

  /** The part of the putLogEvents response the target reads. */
  datatype PutLogEventsResponse = PutLogEventsResponse(nextSequenceToken: Option<string>)

  /** What `empty($this->sequenzeToken)` reads in `export`: the misspelled
      property is never assigned, so PHP sees it as undefined, that is null. */
  const MisspelledTokenProperty: Option<string> := None

  // ---------------------------------------------------------------------------
  // Specification of init: validation order and stream-name fallback
  // ---------------------------------------------------------------------------

  /** The outcome of the checks `init` makes before constructing the client: a
      configuration error, or the log stream name to use (the configured one, or
      else the instance id the metadata lookup returned). The group is checked
      before the region, and both before the stream. */
  function ResolveStream(logGroup: Option<string>, region: Option<string>, logStream: Option<string>,
                         instanceId: Option<string>): (r: Result<string, ConfigError>)
    ensures r == Failure(MissingLogGroup) <==> Empty(logGroup)
    ensures r == Failure(MissingRegion) <==> !Empty(logGroup) && Empty(region)
    ensures r == Failure(UnknownInstanceId) <==> !Empty(logGroup) && !Empty(region) && Empty(logStream) && instanceId == None
    ensures r.Success? <==> !Empty(logGroup) && !Empty(region) && (!Empty(logStream) || instanceId.Some?)
    ensures r.Success? && !Empty(logStream) ==> logStream == Some(r.value)
    ensures r.Success? && Empty(logStream) ==> instanceId == Some(r.value)
  {
    if Empty(logGroup) then Failure(MissingLogGroup)
    else if Empty(region) then Failure(MissingRegion)
    else if !Empty(logStream) then Success(logStream.value)
    else match instanceId
      case Some(id) => Success(id)
      case None => Failure(UnknownInstanceId)
  }

  /** The client parameters `init` builds: always the region and the API version,
      and credentials only when both key and secret are non-empty. */
  function ClientParamsFor(region: string, key: Option<string>, secret: Option<string>): (p: ClientParams)
    ensures p.region == region && p.version == "latest"
    ensures p.credentials.Some? <==> !Empty(key) && !Empty(secret)
    ensures p.credentials.Some? ==> key == Some(p.credentials.value.key) && secret == Some(p.credentials.value.secret)
  {
    if !Empty(key) && !Empty(secret) then ClientParams(region, ApiVersion, Some(Credentials(key.value, secret.value)))
    else ClientParams(region, ApiVersion, None)
  }

  // ---------------------------------------------------------------------------
  // Specification of refreshSequenceToken: exact-name token selection
  // ---------------------------------------------------------------------------

  /** A stream record whose token the scan takes: its name equals the target's
      stream name exactly (a prefix match is not enough) and it has a token. */
  predicate Carries(s: LogStream, name: string) {
    s.logStreamName == name && s.uploadSequenceToken.Some?
  }

  /** The token after scanning `streams` in order, starting from `current`: each
      record that carries a token under exactly `name` replaces the token. */
  function SelectToken(streams: seq<LogStream>, name: string, current: Option<string>): (r: Option<string>)
    ensures r == current || exists i :: 0 <= i < |streams| && Carries(streams[i], name) && r == streams[i].uploadSequenceToken
    decreases |streams|
  {
    if streams == [] then current
    else
      var n := |streams| - 1;
      if Carries(streams[n], name) then streams[n].uploadSequenceToken
      else SelectToken(streams[..n], name, current)
  }

  /** The scan leaves the token unchanged when no record carries a token under
      exactly `name`; otherwise it yields the token of the last record that does. */
  lemma {:induction false} SelectTokenLastCarrier(streams: seq<LogStream>, name: string, current: Option<string>)
    ensures (forall i :: 0 <= i < |streams| ==> !Carries(streams[i], name)) ==>
              SelectToken(streams, name, current) == current
    ensures (exists i :: 0 <= i < |streams| && Carries(streams[i], name)) ==>
              exists i :: 0 <= i < |streams| && Carries(streams[i], name) &&
                          SelectToken(streams, name, current) == streams[i].uploadSequenceToken &&
                          forall j :: i < j < |streams| ==> !Carries(streams[j], name)
    decreases |streams|
  {
    if streams != [] {
      var n := |streams| - 1;
      var p := streams[..n];
      if Carries(streams[n], name) {
        assert SelectToken(streams, name, current) == streams[n].uploadSequenceToken;
      } else {
        SelectTokenLastCarrier(p, name, current);
        assert SelectToken(streams, name, current) == SelectToken(p, name, current);
        assert forall i :: 0 <= i < n ==> p[i] == streams[i];
        if exists i :: 0 <= i < |streams| && Carries(streams[i], name) {
          var k :| 0 <= k < |streams| && Carries(streams[k], name);
          assert Carries(p[k], name);
          var w :| 0 <= w < n && Carries(p[w], name) && SelectToken(p, name, current) == p[w].uploadSequenceToken &&
                   forall j :: w < j < n ==> !Carries(p[j], name);
          assert Carries(streams[w], name) && forall j :: w < j < |streams| ==> !Carries(streams[j], name);
        }
      }
    }
  }

  /** The records of `streams` whose name is exactly `name`, in order. */
  function ExactName(streams: seq<LogStream>, name: string): (r: seq<LogStream>)
    ensures forall i :: 0 <= i < |r| ==> r[i].logStreamName == name && r[i] in streams
    ensures forall i :: 0 <= i < |streams| && streams[i].logStreamName == name ==> streams[i] in r
    ensures |r| <= |streams|
    decreases |streams|
  {
    if streams == [] then []
    else
      var n := |streams| - 1;
      var rest := ExactName(streams[..n], name);
      assert forall x :: x in streams[..n] ==> x in streams;
      assert forall i :: 0 <= i < n ==> streams[..n][i] == streams[i];
      if streams[n].logStreamName == name then rest + [streams[n]] else rest
  }

  /** Filtering keeps the order of the records: the filter of a list in two
      pieces is the filter of the first piece followed by that of the second. */
  lemma {:induction false} ExactNameConcat(a: seq<LogStream>, b: seq<LogStream>, name: string)
    ensures ExactName(a + b, name) == ExactName(a, name) + ExactName(b, name)
    decreases |b|
  {
    if b == [] {
      assert a + b == a;
    } else {
      var n := |b| - 1;
      assert (a + b)[..|a + b| - 1] == a + b[..n];
      assert (a + b)[|a + b| - 1] == b[n];
      ExactNameConcat(a, b[..n], name);
    }
  }

  /** Records returned by the prefix lookup whose name only starts with the
      stream name have no influence on the selected token. */
  lemma {:induction false} SelectTokenIgnoresPrefixMatches(streams: seq<LogStream>, name: string, current: Option<string>)
    ensures SelectToken(streams, name, current) == SelectToken(ExactName(streams, name), name, current)
    decreases |streams|
  {
    if streams != [] {
      var n := |streams| - 1;
      SelectTokenIgnoresPrefixMatches(streams[..n], name, current);
      var rest := ExactName(streams[..n], name);
      if streams[n].logStreamName == name {
        assert (rest + [streams[n]])[..|rest|] == rest;
      }
    }
  }

  /** One more record at the end of the list either replaces the token (when it
      carries one under exactly `name`) or leaves the scan's result as it was. */
  lemma SelectTokenSnoc(s: seq<LogStream>, x: LogStream, name: string, current: Option<string>)
    ensures SelectToken(s + [x], name, current) ==
            (if Carries(x, name) then x.uploadSequenceToken else SelectToken(s, name, current))
  {
    assert (s + [x])[..|s|] == s;
  }

  /** The scan is a left fold: scanning a list in two pieces gives the same token
      as scanning it at once, so a match in the later piece overrides the earlier one. */
  lemma {:induction false} SelectTokenConcat(a: seq<LogStream>, b: seq<LogStream>, name: string, current: Option<string>)
    ensures SelectToken(a + b, name, current) == SelectToken(b, name, SelectToken(a, name, current))
    decreases |b|
  {
    if b == [] {
      assert a + b == a;
    } else {
      var n := |b| - 1;
      assert a + b == (a + b[..n]) + [b[n]];
      assert b == b[..n] + [b[n]];
      SelectTokenConcat(a, b[..n], name, current);
      SelectTokenSnoc(a + b[..n], b[n], name, current);
      SelectTokenSnoc(b[..n], b[n], name, SelectToken(a, name, current));
    }
  }

  // ---------------------------------------------------------------------------
  // Specification of export: events and payload
  // ---------------------------------------------------------------------------

  /** The event list of one export: message i of the buffer paired with the
      i-th clock reading. */
  function Events<M>(messages: seq<M>, timestamps: seq<int>): (r: seq<LogEvent<M>>)
    requires |timestamps| == |messages|
    ensures |r| == |messages|
    ensures forall i :: 0 <= i < |r| ==> r[i].message == messages[i] && r[i].timestamp == timestamps[i]
    decreases |messages|
  {
    if messages == [] then []
    else
      var n := |messages| - 1;
      Events(messages[..n], timestamps[..n]) + [LogEvent(messages[n], timestamps[n])]
  }

  /** The payload `export` sends, where `guard` is the value its `empty()` test
      reads and `token` the tracked sequence token. */
  function Request<M>(events: seq<LogEvent<M>>, group: string, stream: string,
                      guard: Option<string>, token: Option<string>): (r: PutLogEventsRequest<M>)
    ensures r.logEvents == events && r.logGroupName == group && r.logStreamName == stream
    ensures !Empty(guard) ==> r.sequenceToken == token
    ensures r.sequenceToken.Some? ==> !Empty(guard) && r.sequenceToken == token
  {
    var data := PutLogEventsRequest(events, group, stream, None);
    if !Empty(guard) then data.(sequenceToken := token) else data
  }

  /** With the guard as written the payload never carries a sequence token,
      whatever token the target holds. */
  lemma WrittenGuardOmitsToken<M>(events: seq<LogEvent<M>>, group: string, stream: string, token: Option<string>)
    ensures Request(events, group, stream, MisspelledTokenProperty, token).sequenceToken == None
  {
  }

  /** Had the guard read the tracked token itself, a non-empty token would be sent. */
  lemma TokenGuardSendsToken<M>(events: seq<LogEvent<M>>, group: string, stream: string, token: Option<string>)
    ensures Request(events, group, stream, token, token).sequenceToken == (if Empty(token) then None else token)
  {
  }

  // ---------------------------------------------------------------------------
  // The target
  // ---------------------------------------------------------------------------

  /** The log target. The public configuration properties hold what the
      application configured; `messages` is the buffer the logging framework
      fills and hands to `Export`. */
  class Target<M> {
    var logGroup: Option<string>
    var region: Option<string>
    var key: Option<string>
    var logStream: Option<string>
    var secret: Option<string>
    /** The constructed client, represented by its parameters; `None` until `Init` builds it. */
    var client: Option<ClientParams>
    var sequenceToken: Option<string>
    var messages: seq<M>
    /** The last describeLogStreams request sent. */
    var lastDescribe: Option<DescribeLogStreamsRequest>
    /** The last putLogEvents payload sent. */
    var lastPut: Option<PutLogEventsRequest<M>>

    /** The state `Export` relies on, which a successful `Init` establishes. */
    ghost predicate Initialized()
      reads this
    {
      !Empty(logGroup) && logStream.Some? && client.Some?
    }

    /** The configured object before `Init` runs: properties as given, no
        client, no token, nothing buffered or sent. */
    constructor (logGroup: Option<string>, region: Option<string>, key: Option<string>,
                 secret: Option<string>, logStream: Option<string>)
      ensures this.logGroup == logGroup && this.region == region && this.key == key
      ensures this.secret == secret && this.logStream == logStream
      ensures client == None && sequenceToken == None && messages == []
      ensures lastDescribe == None && lastPut == None
    {
      this.logGroup := logGroup;
      this.region := region;
      this.key := key;
      this.secret := secret;
      this.logStream := logStream;
      client := None;
      sequenceToken := None;
      messages := [];
      lastDescribe := None;
      lastPut := None;
    }

    /** Validates the configuration, falls back to the instance id for the
        stream name, constructs the client and looks up the sequence token.
        `instanceId` is the answer of the metadata lookup (`None` when it
        failed; it is only consulted when no stream name is configured) and
        `existingStreams` the describeLogStreams answer. A configuration error
        leaves the object as it was. */
    method Init(instanceId: Option<string>, existingStreams: seq<LogStream>) returns (outcome: Outcome<ConfigError>)
      modifies this`logStream, this`client, this`sequenceToken, this`lastDescribe
      ensures match ResolveStream(logGroup, region, old(logStream), instanceId)
              case Failure(e) =>
                outcome == Fail(e) && logStream == old(logStream) && client == old(client) &&
                sequenceToken == old(sequenceToken) && lastDescribe == old(lastDescribe)
              case Success(stream) =>
                outcome == Pass && Initialized() && logStream == Some(stream) &&
                client == Some(ClientParamsFor(region.value, key, secret)) &&
                lastDescribe == Some(DescribeLogStreamsRequest(logGroup.value, stream)) &&
                sequenceToken == SelectToken(existingStreams, stream, old(sequenceToken))
    {
      if Empty(logGroup) {
        return Fail(MissingLogGroup);
      }
      if Empty(region) {
        return Fail(MissingRegion);
      }
      if Empty(logStream) {
        if instanceId.Some? {
          logStream := instanceId;
        } else {
          return Fail(UnknownInstanceId);
        }
      }
      var params := ClientParams(region.value, ApiVersion, None);
      if !Empty(key) && !Empty(secret) {
        params := params.(credentials := Some(Credentials(key.value, secret.value)));
      }
      client := Some(params);
      RefreshSequenceToken(existingStreams);
      outcome := Pass;
    }

    /** Asks for the streams whose name starts with the stream name and keeps,
        in list order, the token of every record named exactly like the stream
        that has one; `existingStreams` is the answer. */
    method RefreshSequenceToken(existingStreams: seq<LogStream>)
      requires logGroup.Some? && logStream.Some? && client.Some?
      modifies this`sequenceToken, this`lastDescribe
      ensures lastDescribe == Some(DescribeLogStreamsRequest(logGroup.value, logStream.value))
      ensures sequenceToken == SelectToken(existingStreams, logStream.value, old(sequenceToken))
    {
      lastDescribe := Some(DescribeLogStreamsRequest(logGroup.value, logStream.value));
      var i := 0;
      while i < |existingStreams|
        invariant 0 <= i <= |existingStreams|
        invariant lastDescribe == Some(DescribeLogStreamsRequest(logGroup.value, logStream.value))
        invariant sequenceToken == SelectToken(existingStreams[..i], logStream.value, old(sequenceToken))
      {
        var stream := existingStreams[i];
        assert existingStreams[..i + 1][..i] == existingStreams[..i];
        if stream.logStreamName == logStream.value && stream.uploadSequenceToken.Some? {
          sequenceToken := stream.uploadSequenceToken;
        }
        i := i + 1;
      }
      assert existingStreams[..i] == existingStreams;
    }

    /** Sends the buffered messages, one event each with the clock reading
        `timestamps[i]`, to the configured group and stream, and keeps the
        response's next token. With the guard as written no token is sent. */
    method Export(timestamps: seq<int>, response: PutLogEventsResponse)
      requires Initialized() && |timestamps| == |messages|
      modifies this`sequenceToken, this`lastPut
      ensures lastPut.Some?
      ensures lastPut.value.logEvents == Events(messages, timestamps)
      ensures lastPut.value.logGroupName == logGroup.value && lastPut.value.logStreamName == logStream.value
      ensures lastPut.value.sequenceToken == None
      ensures sequenceToken == response.nextSequenceToken
      ensures Initialized()
    {
      var logEvents: seq<LogEvent<M>> := [];
      var i := 0;
      while i < |messages|
        invariant 0 <= i <= |messages|
        invariant logEvents == Events(messages[..i], timestamps[..i])
      {
        assert messages[..i + 1][..i] == messages[..i];
        assert timestamps[..i + 1][..i] == timestamps[..i];
        logEvents := logEvents + [LogEvent(messages[i], timestamps[i])];
        i := i + 1;
      }
      assert messages[..i] == messages && timestamps[..i] == timestamps;
      var data := Request(logEvents, logGroup.value, logStream.value, MisspelledTokenProperty, sequenceToken);
      lastPut := Some(data);
      sequenceToken := response.nextSequenceToken;
    }
  }
}
