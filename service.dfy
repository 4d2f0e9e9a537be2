/**
  The daytime service: on start it connects to the local MQTT broker, reads
  its configuration, decides the next day/night transition and publishes the
  current status, the next status and the next transition time as retained
  messages; on stop it settles its timer and closes the connection.
  The broker, the configuration store, the solar library and the clock are
  replaced by inputs.
 */
module Service {
  import opened Wrappers
  import opened Transition

  const Scheme: string := "tcp://"
  const BrokerAddress: string := "127.0.0.1:1883"

  const StatusTopic: string := "Service/Daytime/Status"
  const NextStatusTopic: string := "Service/Daytime/Next/Status"
  const NextTimeTopic: string := "Service/Daytime/Next/Time"

  const Minute: Duration := 60_000_000_000
  const Hour: Duration := 3_600_000_000_000

  /** The configuration keys the service reads. `user` is absent when
      `MQTT.User` is not set; `pass` is "" when `MQTT.Pass` is not set;
      `offsetMinutes` is absent when `offset` is not set. */
  datatype Config = Config(user: Option<string>, pass: string, offsetMinutes: Option<Int64>, lat: real, lon: real)

  /** What the broker answers to a connection attempt at a URL. */
  datatype Dial = Connected | Refused(reason: string)

  /** An open connection to the broker, with the URL it was opened on. */
  datatype Client = Client(url: string)

  /** A casa.Message: topic, payload and the retained flag. */
  datatype Message = Message(topic: string, payload: string, retain: bool)

  /** One publish handed to the client, and whether the broker took it. */
  datatype Attempt = Attempt(message: Message, delivered: bool)

  /** The service's timer: none at all, or one that is still pending or not. */
  datatype Timer = NoTimer | Armed(pending: bool)

  /** How Start ends: success, one of the two errors it returns, or the nil
      dereference of the next time when no transition lies ahead today. */
  datatype StartOutcome = Started | ConnectFailed(reason: string) | CalcFailed(error: Error) | NilTimePanic

  /** How Stop ends: the result of closing the client, or the nil dereference
      of a client that was never set. */
  datatype StopOutcome = Closed(error: Option<string>) | NilClientPanic

  /** The broker URL: credentials, when a user is configured, go in front of
      the fixed local address. */
  function BrokerUrl(user: Option<string>, pass: string): (url: string)
    ensures |url| >= |Scheme| + |BrokerAddress|
    ensures url[..|Scheme|] == Scheme && url[|url| - |BrokerAddress|..] == BrokerAddress
    ensures user.None? <==> |url| == |Scheme| + |BrokerAddress|
  {
    var userString := if user.Some? then user.value + ":" + pass + "@" else "";
    Scheme + userString + BrokerAddress
  }

  /** Position of the first `c` in `s`, or |s| if there is none. */
  function IndexOf(s: string, c: char): (i: nat)
    ensures i <= |s|
    ensures i < |s| ==> s[i] == c
    ensures forall j :: 0 <= j < i ==> s[j] != c
  {
    if s == [] || s[0] == c then 0 else 1 + IndexOf(s[1..], c)
  }

  /** The user information of a broker URL, the text between the scheme and
      the '@' before the address, split at its first ':'. */
  function Credentials(url: string): (c: Option<(string, string)>)
  {
    if |url| <= |Scheme| + |BrokerAddress| then None
    else
      var info := url[|Scheme|..|url| - |BrokerAddress|];
      if info[|info| - 1] != '@' then None
      else
        var userPass := info[..|info| - 1];
        var k := IndexOf(userPass, ':');
        if k == |userPass| then Some((userPass, "")) else Some((userPass[..k], userPass[k + 1..]))
  }

  /** The broker reads back exactly the configured credentials, provided the
      user name holds no ':'. */
  lemma {:induction false} CredentialsRoundTrip(user: Option<string>, pass: string)
    requires user.Some? ==> ':' !in user.value
    ensures Credentials(BrokerUrl(user, pass)) == if user.None? then None else Some((user.value, pass))
  {
    var url := BrokerUrl(user, pass);
    if user.Some? {
      var u := user.value;
      assert url == Scheme + (u + ":" + pass + "@") + BrokerAddress;
      var info := url[|Scheme|..|url| - |BrokerAddress|];
      assert info == u + ":" + pass + "@";
      var userPass := info[..|info| - 1];
      assert userPass == u + ":" + pass;
      var k := IndexOf(userPass, ':');
      assert userPass[|u|] == ':';
      assert forall j :: 0 <= j < |u| ==> userPass[j] == u[j];
      assert k == |u|;
      assert userPass[..k] == u && userPass[k + 1..] == pass;
    }
  }

  /** The credentials are not escaped: a ':' in the user name makes two
      configurations share one URL. */
  lemma ColonInUserIsAmbiguous()
    ensures BrokerUrl(Some("a:b"), "c") == BrokerUrl(Some("a"), "b:c")
    ensures Credentials(BrokerUrl(Some("a:b"), "c")) == Some(("a", "b:c"))
  {
    CredentialsRoundTrip(Some("a"), "b:c");
  }

  /** The offset: one hour by default, otherwise the configured number of
      minutes, multiplied out in int64 arithmetic. */
  function ConfiguredOffset(minutes: Option<Int64>): (offset: Duration)
    ensures minutes.None? ==> offset == Hour
    ensures minutes.Some? ==> (offset - minutes.value * Minute) % TwoTo64 == 0
    ensures minutes.Some? && MinInt64 <= minutes.value * Minute <= MaxInt64 ==>
              offset == minutes.value * Minute
  {
    match minutes
    case None => Hour
    case Some(n) => Wrap64(n * Minute)
  }

  /** Every offset of up to 153722867 minutes either way (about 292 years) is
      exact; one minute more wraps around to a negative duration. */
  lemma OffsetMinutesRange(n: Int64)
    requires -153722867 <= n <= 153722867
    ensures ConfiguredOffset(Some(n)) == n * 60_000_000_000
    ensures ConfiguredOffset(Some(153722868)) < 0
  {
  }

  /** A configured offset of 2^52 minutes multiplies out to the least int64
      duration. */
  lemma LeastOffsetIsConfigurable()
    ensures ConfiguredOffset(Some(0x10_0000_0000_0000)) == MinInt64
  {
  }

  /** The current status is the complement of the next one; an unknown next
      status counts as "not daytime". */
  function CurrentStatus(next: string): (current: string)
    ensures current == NighttimeStatus <==> next == DaytimeStatus
    ensures current == DaytimeStatus <==> next != DaytimeStatus
    ensures current != next
  {
    if next == DaytimeStatus then NighttimeStatus else DaytimeStatus
  }

  /** The three retained messages published at start, in order. */
  function StartupMessages(current: string, next: string, nextTime: string): (ms: seq<Message>)
    ensures |ms| == 3
    ensures forall k :: 0 <= k < |ms| ==> ms[k].retain
    ensures ms[0].topic == StatusTopic && ms[1].topic == NextStatusTopic && ms[2].topic == NextTimeTopic
    ensures ms[0].payload == current && ms[1].payload == next && ms[2].payload == nextTime
  {
    [Message(StatusTopic, current, true),
     Message(NextStatusTopic, next, true),
     Message(NextTimeTopic, nextTime, true)]
  }

  /** The log left by publishing every message of `ms` in order, whatever the
      broker answers; attempt number `first + k` is refused exactly when it is
      in `rejected`. */
  function Attempts(ms: seq<Message>, rejected: set<nat>, first: nat): (log: seq<Attempt>)
    ensures |log| == |ms|
    ensures forall k :: 0 <= k < |ms| ==> log[k] == Attempt(ms[k], first + k !in rejected)
    decreases |ms|
  {
    if ms == [] then [] else [Attempt(ms[0], first !in rejected)] + Attempts(ms[1..], rejected, first + 1)
  }

  /** The Daytime service object. `published` and `closed` stand for what the
      client did on the broker's side: every publish handed to it, in order,
      and whether it has been closed. */
  class Daytime {
    var client: Option<Client>
    var timer: Timer
    var timerDone: bool
    var nextStatus: string
    var lat: real
    var lon: real
    var offset: Duration
    var published: seq<Attempt>
    var closed: bool

    /** The zero value `&Daytime{}` the service is registered with. */
    constructor ()
      ensures client == None && timer == NoTimer && !timerDone && nextStatus == UnknownStatus
      ensures lat == 0.0 && lon == 0.0 && offset == 0
      ensures published == [] && !closed
    {
      client := None;
      timer := NoTimer;
      timerDone := false;
      nextStatus := UnknownStatus;
      lat, lon := 0.0, 0.0;
      offset := 0;
      published := [];
      closed := false;
    }

    /** Hands one message to the client; the broker takes it or refuses it. */
    method PublishMessage(message: Message, delivered: bool)
      requires client.Some?
      modifies this`published
      ensures published == old(published) + [Attempt(message, delivered)]
    {
      published := published + [Attempt(message, delivered)];
    }

    /** Start, up to its first return. `dial` is the broker's answer to a
        connection attempt, `sunrise` and `sunset` the solar library's answers,
        `now` the clock, `render` the formatting of an instant, and `rejected`
        the numbers (from 0) of the publishes the broker refuses. */
    method Start(cfg: Config, dial: string -> Dial, sunrise: SunResult, sunset: SunResult, now: Time,
                 render: Time -> string, rejected: set<nat>) returns (outcome: StartOutcome)
      modifies this
      ensures timer == old(timer) && timerDone == old(timerDone) && closed == old(closed)
      ensures var url := BrokerUrl(cfg.user, cfg.pass);
              dial(url).Refused? ==> outcome == ConnectFailed(dial(url).reason) && unchanged(this)
      ensures var url := BrokerUrl(cfg.user, cfg.pass);
              dial(url).Connected? ==>
                && client == Some(Client(url))
                && offset == ConfiguredOffset(cfg.offsetMinutes)
                && lat == cfg.lat && lon == cfg.lon
      ensures var url := BrokerUrl(cfg.user, cfg.pass);
              var next := GetNext(sunrise, sunset, ConfiguredOffset(cfg.offsetMinutes), now);
              dial(url).Connected? ==>
                && (next.Failure? ==>
                      outcome == CalcFailed(next.error) && nextStatus == old(nextStatus) && published == old(published))
                && (next.Success? ==> nextStatus == next.value.status)
                && (next.Success? && next.value.at.None? ==>
                      outcome == NilTimePanic && published == old(published))
                && (next.Success? && next.value.at.Some? ==>
                      var n := next.value;
                      && outcome == Started
                      && published == old(published) +
                           Attempts(StartupMessages(CurrentStatus(n.status), n.status, render(n.at.value)), rejected, 0))
    {
      var url := BrokerUrl(cfg.user, cfg.pass);
      var connection := dial(url);
      if connection.Refused? {
        return ConnectFailed(connection.reason);
      }
      client := Some(Client(url));

      offset := ConfiguredOffset(cfg.offsetMinutes);
      lat := cfg.lat;
      lon := cfg.lon;

      var next := GetNext(sunrise, sunset, offset, now);
      if next.Failure? {
        return CalcFailed(next.error);
      }
      var current := CurrentStatus(next.value.status);
      nextStatus := next.value.status;

      // Computing the delay until the next time dereferences it.
      if next.value.at.None? {
        return NilTimePanic;
      }
      var at := next.value.at.value;

      var messages := StartupMessages(current, nextStatus, render(at));
      var i := 0;
      while i < |messages|
        invariant 0 <= i <= |messages|
        invariant published == old(published) + Attempts(messages[..i], rejected, 0)
        modifies this`published
      {
        // A refused publish is only logged; the loop goes on.
        PublishMessage(messages[i], i !in rejected);
        assert Attempts(messages[..i + 1], rejected, 0)
            == Attempts(messages[..i], rejected, 0) + [Attempt(messages[i], i !in rejected)];
        i := i + 1;
      }
      assert messages[..i] == messages;
      return Started;
    }

    /** time.Timer.Stop: true when it stopped a pending timer; afterwards the
        timer is not pending. */
    method StopTimer() returns (stopped: bool)
      requires timer.Armed?
      modifies this`timer
      ensures stopped == old(timer).pending && timer == Armed(false)
    {
      stopped := timer.pending;
      timer := Armed(false);
    }

    /** Closes the client and returns the broker's answer. */
    method Close(closeError: Option<string>) returns (error: Option<string>)
      requires client.Some?
      modifies this`closed
      ensures closed && error == closeError
    {
      closed := true;
      error := closeError;
    }

    /** Stop: wait for the timer's channel only when there is a timer, its
        callback has not marked it done and it could not be stopped; then
        close the client. `waited` tells whether the channel was read. */
    method Stop(closeError: Option<string>) returns (waited: bool, outcome: StopOutcome)
      modifies this`timer, this`closed
      ensures waited <==> old(timer).Armed? && !timerDone && !old(timer).pending
      ensures timer == if old(timer).Armed? && !timerDone then Armed(false) else old(timer)
      ensures client.Some? ==> outcome == Closed(closeError) && closed
      ensures client.None? ==> outcome == NilClientPanic && closed == old(closed)
    {
      waited := false;
      if timer.Armed? && !timerDone {
        var stopped := StopTimer();
        if !stopped {
          waited := true;
        }
      }
      if client.None? {
        return waited, NilClientPanic;
      }
      var error := Close(closeError);
      outcome := Closed(error);
    }
  }

  /** One life of the service as its host drives it: construct, start, stop.
      Start never arms the timer, so Stop never waits; it closes the client
      whenever the connection was made. On the success path exactly the three
      startup messages were attempted, in order, each whatever became of the
      ones before. */
  method Lifecycle(cfg: Config, dial: string -> Dial, sunrise: SunResult, sunset: SunResult, now: Time,
                   render: Time -> string, rejected: set<nat>, closeError: Option<string>)
    returns (started: StartOutcome, log: seq<Attempt>, waited: bool, stopped: StopOutcome)
    ensures !waited
    ensures dial(BrokerUrl(cfg.user, cfg.pass)).Connected? ==> stopped == Closed(closeError)
    ensures dial(BrokerUrl(cfg.user, cfg.pass)).Refused? ==> stopped == NilClientPanic && log == []
    ensures started != Started ==> log == []
    ensures started == Started ==>
              && |log| == 3
              && log[0].message.topic == StatusTopic
              && log[1].message.topic == NextStatusTopic
              && log[2].message.topic == NextTimeTopic
              && (forall k :: 0 <= k < 3 ==> log[k].message.retain && log[k].delivered == (k !in rejected))
              && log[0].message.payload == CurrentStatus(log[1].message.payload)
  {
    var d := new Daytime();
    started := d.Start(cfg, dial, sunrise, sunset, now, render, rejected);
    log := d.published;
    waited, stopped := d.Stop(closeError);
  }
}
