/** The GrowthPush facade as a state machine over values.

    Every public operation of the facade, and every background thread it
    starts, is a function from the old state to the new one. A started thread
    is a `Task` waiting in `pending`; a scheduler runs one task at a time with
    one of the `...Step` functions, passing in what the remote call returned.
    Every call made to the remote service is appended to `calls`, so that
    "no call was made" and "the call was made only after registration" can be
    stated. The class in module Facade holds the same state in mutable fields
    and each of its methods is specified by the function here. */
module Machine {
  import opened Wrappers
  import opened Model
  import opened Text

  datatype Exception = IllegalStateException | NullPointerException

  /** How a facade method ends: normally, or with an exception. */
  datatype Status = Returned | Threw(exception: Exception)

  /** A background thread that has been started and has not finished. */
  datatype Task =
    | FetchToken(senderId: string)                       // thread of register
    | CreateClient(registrationId: Option<string>)       // thread of registerClient
    | SendEvent(name: string, value: Option<string>)     // thread of trackEvent
    | SendTag(name: string, value: Option<string>)       // thread of setTag

  /** A call to the remote service, with the data it carries. */
  datatype Request =
    | ClientRequest(registrationId: Option<string>, applicationId: int,
                    secret: Option<string>, environment: Option<Environment>)
    | EventRequest(client: Option<Client>, name: string, value: Option<string>)
    | TagRequest(client: Option<Client>, name: string, value: Option<string>)

  /** The installation settings. `initialized` is "the context is not null". */
  datatype Configuration = Configuration(initialized: bool, applicationId: int,
                                         secret: Option<string>,
                                         environment: Option<Environment>,
                                         debug: bool)

  /** The whole facade: configuration, the current client, the latch
      (`resolved` is "the count has reached zero"), the persistent store
      (cached client and tags by name), started threads and issued calls. */
  datatype State = State(config: Configuration,
                         client: Option<Client>,
                         resolved: bool,
                         cachedClient: Option<Client>,
                         tags: map<string, Tag>,
                         pending: seq<Task>,
                         calls: seq<Request>)

  /** The six device properties that setDeviceTags reports; opaque values. */
  datatype DeviceInfo = DeviceInfo(device: Option<string>, os: Option<string>,
                                   language: Option<string>, timeZone: Option<string>,
                                   version: Option<string>, build: Option<string>)

  /** What the synchronous part of setTag decides. */
  datatype TagDecision = Skip | Send | NullValue

  /** One facade call or one scheduler step, for reasoning about runs. */
  datatype Op =
    | InitializeOp(context: bool, applicationId: int, secret: Option<string>,
                   environment: Option<Environment>, debug: bool)
    | RegisterOp(senderId: string)
    | RegisterClientOp(registrationId: Option<string>)
    | TrackEventOp(name: string, value: Option<string>)
    | SetTagOp(name: string, value: Option<string>)
    | SetDeviceTagsOp(device: DeviceInfo)
    | FetchTokenOp(index: nat, token: Outcome<string>)
    | CreateClientOp(index: nat, created: Outcome<Client>)
    | SendEventOp(index: nat, timestamp: Outcome<string>)
    | SendTagOp(index: nat, savedTag: Outcome<Tag>)

  // ---------------------------------------------------------------------
  // Invariant and gate

  /** A call that depends on registration carries a client. */
  predicate RegisteredBefore(r: Request) {
    r.ClientRequest? || r.client.Some?
  }

  /** Held by every reachable state: the latch is open exactly when a client
      is current, the current client is the one in the store, and no event or
      tag was ever sent without a client. */
  ghost predicate Valid(s: State) {
    && (s.resolved <==> s.client.Some?)
    && (s.client.Some? ==> s.cachedClient == s.client)
    && forall k :: 0 <= k < |s.calls| ==> RegisteredBefore(s.calls[k])
  }

  /** The condition under which waitClientRegistration lets a thread go on:
      a client is set, or the latch is open. */
  predicate GateOpen(s: State) {
    s.client.Some? || s.resolved
  }

  /** The singleton as constructed, over whatever the store already holds. */
  function Initial(storedClient: Option<Client>, storedTags: map<string, Tag>): (s: State)
    ensures Valid(s) && !GateOpen(s) && !s.config.initialized
    ensures s.cachedClient == storedClient && s.tags == storedTags
    ensures s.pending == [] && s.calls == []
  {
    State(Configuration(false, 0, None, None, false), None, false,
          storedClient, storedTags, [], [])
  }

  /** A finished thread leaves the set of started ones. */
  function Remove(p: seq<Task>, i: nat): (r: seq<Task>)
    requires i < |p|
    ensures |r| == |p| - 1
    ensures multiset(r) + multiset{p[i]} == multiset(p)
  {
    assert p == p[..i] + [p[i]] + p[i+1..];
    p[..i] + p[i+1..]
  }

  // ---------------------------------------------------------------------
  // Registration

  function Initialize(s: State, context: bool, applicationId: int,
                      secret: Option<string>, environment: Option<Environment>,
                      debug: bool): State
  {
    if s.config.initialized then s
    else s.(config := Configuration(context, applicationId, secret, environment, debug))
  }

  function Register(s: State, senderId: string): (State, Status) {
    if !s.config.initialized then (s, Threw(IllegalStateException))
    else (s.(pending := s.pending + [FetchToken(senderId)]), Returned)
  }

  /** The reuse test of registerClient: the cached client belongs to this
      application, and the new registration id is null or equals its token. */
  function CanReuse(cached: Option<Client>, applicationId: int,
                    registrationId: Option<string>): (reuse: bool)
    ensures reuse ==> cached.Some? && cached.value.applicationId == applicationId
    ensures (cached.Some? && cached.value.applicationId == applicationId
             && registrationId.None?) ==> reuse
    ensures registrationId.Some? && cached.Some? ==>
              (reuse <==> cached.value.applicationId == applicationId
                          && cached.value.token == registrationId)
  {
    && cached.Some?
    && cached.value.applicationId == applicationId
    && (registrationId.None? || registrationId == cached.value.token)
  }

  function RegisterClient(s: State, registrationId: Option<string>): State {
    if CanReuse(s.cachedClient, s.config.applicationId, registrationId) then
      s.(client := s.cachedClient, resolved := true)
    else
      s.(pending := s.pending + [CreateClient(registrationId)])
  }

  /** The thread of register: the token fetch succeeded with `t` and
      registerClient runs, or it failed and the thread ends. */
  function FetchTokenStep(s: State, i: nat, token: Outcome<string>): State
    requires i < |s.pending| && s.pending[i].FetchToken?
  {
    var s' := s.(pending := Remove(s.pending, i));
    match token
    case Success(t) => RegisterClient(s', Some(t))
    case Failure(_) => s'
  }

  /** The thread of registerClient's create branch. The request uses the
      configuration as it is when the thread runs. */
  function CreateClientStep(s: State, i: nat, created: Outcome<Client>): State
    requires i < |s.pending| && s.pending[i].CreateClient?
  {
    var request := ClientRequest(s.pending[i].registrationId, s.config.applicationId,
                                 s.config.secret, s.config.environment);
    var s' := s.(pending := Remove(s.pending, i), calls := s.calls + [request]);
    match created
    case Success(c) => s'.(client := Some(c), cachedClient := Some(c), resolved := true)
    case Failure(_) => s'
  }

  // ---------------------------------------------------------------------
  // Events and tags

  function TrackEvent(s: State, name: string, value: Option<string>): State {
    s.(pending := s.pending + [SendEvent(name, value)])
  }

  /** The thread of trackEvent. While the gate is shut it stays parked and
      nothing changes; once open it sends the event. The outcome is only
      logged. */
  function SendEventStep(s: State, i: nat, timestamp: Outcome<string>): State
    requires i < |s.pending| && s.pending[i].SendEvent?
  {
    if !GateOpen(s) then s
    else
      var task := s.pending[i];
      s.(pending := Remove(s.pending, i),
         calls := s.calls + [EventRequest(s.client, task.name, task.value)])
  }

  function FetchTag(tags: map<string, Tag>, name: string): (t: Option<Tag>)
    ensures t.Some? <==> name in tags
    ensures t.Some? ==> t.value == tags[name]
  {
    if name in tags then Some(tags[name]) else None
  }

  /** The synchronous check of setTag. `value.equalsIgnoreCase(...)` throws on
      a null `value` when a tag is stored, and is false against a null stored
      value. */
  function DecideTag(stored: Option<Tag>, value: Option<string>): (d: TagDecision)
    ensures stored.None? ==> d == Send
    ensures d == NullValue <==> stored.Some? && value.None?
    ensures d == Skip <==> stored.Some? && value.Some? && stored.value.value.Some?
                           && EqualsIgnoreCase(value.value, stored.value.value.value)
  {
    match stored
    case None => Send
    case Some(tag) =>
      match value
      case None => NullValue
      case Some(v) =>
        if tag.value.Some? && EqualsIgnoreCase(v, tag.value.value) then Skip else Send
  }

  function SetTag(s: State, name: string, value: Option<string>): (State, Status) {
    match DecideTag(FetchTag(s.tags, name), value)
    case Skip => (s, Returned)
    case NullValue => (s, Threw(NullPointerException))
    case Send => (s.(pending := s.pending + [SendTag(name, value)]), Returned)
  }

  /** The thread of setTag: parked while the gate is shut; once open it sends
      the tag, and on success the store files the returned tag by its name. */
  function SendTagStep(s: State, i: nat, savedTag: Outcome<Tag>): State
    requires i < |s.pending| && s.pending[i].SendTag?
  {
    if !GateOpen(s) then s
    else
      var task := s.pending[i];
      var s' := s.(pending := Remove(s.pending, i),
                   calls := s.calls + [TagRequest(s.client, task.name, task.value)]);
      match savedTag
      case Success(tag) => s'.(tags := s'.tags[tag.name := tag])
      case Failure(_) => s'
  }

  function DeviceTags(d: DeviceInfo): seq<(string, Option<string>)> {
    [("Device", d.device), ("OS", d.os), ("Language", d.language),
     ("Time Zone", d.timeZone), ("Version", d.version), ("Build", d.build)]
  }

  /** setTag on each pair in turn; an exception ends the sequence. */
  function SetTags(s: State, pairs: seq<(string, Option<string>)>): (State, Status)
    decreases |pairs|
  {
    if pairs == [] then (s, Returned)
    else
      var (t, status) := SetTag(s, pairs[0].0, pairs[0].1);
      if status.Threw? then (t, status) else SetTags(t, pairs[1..])
  }

  function SetDeviceTags(s: State, d: DeviceInfo): (State, Status) {
    if !s.config.initialized then (s, Threw(IllegalStateException))
    else SetTags(s, DeviceTags(d))
  }

  // ---------------------------------------------------------------------
  // Runs

  /** One operation; a step whose task is not there is not enabled and
      changes nothing. */
  function Apply(s: State, op: Op): State {
    match op
    case InitializeOp(c, a, sec, e, dbg) => Initialize(s, c, a, sec, e, dbg)
    case RegisterOp(sender) => Register(s, sender).0
    case RegisterClientOp(r) => RegisterClient(s, r)
    case TrackEventOp(n, v) => TrackEvent(s, n, v)
    case SetTagOp(n, v) => SetTag(s, n, v).0
    case SetDeviceTagsOp(d) => SetDeviceTags(s, d).0
    case FetchTokenOp(i, t) =>
      if i < |s.pending| && s.pending[i].FetchToken? then FetchTokenStep(s, i, t) else s
    case CreateClientOp(i, c) =>
      if i < |s.pending| && s.pending[i].CreateClient? then CreateClientStep(s, i, c) else s
    case SendEventOp(i, t) =>
      if i < |s.pending| && s.pending[i].SendEvent? then SendEventStep(s, i, t) else s
    case SendTagOp(i, t) =>
      if i < |s.pending| && s.pending[i].SendTag? then SendTagStep(s, i, t) else s
  }

  function Run(s: State, ops: seq<Op>): State
    decreases |ops|
  {
    if ops == [] then s else Run(Apply(s, ops[0]), ops[1..])
  }

  /** What never goes backwards: a set configuration, an open latch, a
      current client, and the record of calls made. */
  ghost predicate Evolves(s: State, t: State) {
    && (s.config.initialized ==> t.config == s.config)
    && (s.resolved ==> t.resolved)
    && (s.client.Some? ==> t.client.Some?)
    && s.calls <= t.calls
  }
}
