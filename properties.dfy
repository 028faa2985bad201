/** What the facade promises, proved about the functions of module Machine. */
module Properties {
  import opened Wrappers
  import opened Model
  import opened Text
  import opened Machine

  // ---------------------------------------------------------------------
  // initialize, register, setDeviceTags guards

  /** initialize is write-once: once the context is set a call changes
      nothing; before that it stores exactly its arguments and touches
      nothing else. */
  lemma InitializeIsWriteOnce(s: State, context: bool, applicationId: int,
                              secret: Option<string>, environment: Option<Environment>,
                              debug: bool)
    ensures s.config.initialized ==>
              Initialize(s, context, applicationId, secret, environment, debug) == s
    ensures !s.config.initialized ==>
              var t := Initialize(s, context, applicationId, secret, environment, debug);
              && t.config == Configuration(context, applicationId, secret, environment, debug)
              && t == s.(config := t.config)
  {
  }

  /** A second initialize with a context, whatever its arguments, leaves the
      first call's configuration in place. */
  lemma SecondInitializeChangesNothing(s: State,
                                       a1: int, sec1: Option<string>, e1: Option<Environment>, d1: bool,
                                       c2: bool, a2: int, sec2: Option<string>, e2: Option<Environment>, d2: bool)
    requires !s.config.initialized
    ensures var t := Initialize(s, true, a1, sec1, e1, d1);
            && Initialize(t, c2, a2, sec2, e2, d2) == t
            && t.config == Configuration(true, a1, sec1, e1, d1)
  {
  }

  /** initialize with a null context assigns the fields but leaves the facade
      uninitialised, so the next initialize overwrites them. */
  lemma NullContextDoesNotLock(s: State, a1: int, sec1: Option<string>, e1: Option<Environment>, d1: bool,
                               a2: int, sec2: Option<string>, e2: Option<Environment>, d2: bool)
    requires !s.config.initialized
    ensures var t := Initialize(s, false, a1, sec1, e1, d1);
            Initialize(t, true, a2, sec2, e2, d2).config == Configuration(true, a2, sec2, e2, d2)
  {
  }

  /** register throws IllegalStateException before initialisation and
      changes nothing; after it, register starts exactly one token-fetch
      thread. */
  lemma RegisterGuard(s: State, senderId: string)
    ensures !s.config.initialized ==> Register(s, senderId) == (s, Threw(IllegalStateException))
    ensures s.config.initialized ==>
              Register(s, senderId) == (s.(pending := s.pending + [FetchToken(senderId)]), Returned)
  {
  }

  /** setDeviceTags throws IllegalStateException before initialisation and
      changes nothing. */
  lemma SetDeviceTagsGuard(s: State, d: DeviceInfo)
    requires !s.config.initialized
    ensures SetDeviceTags(s, d) == (s, Threw(IllegalStateException))
  {
  }

  // ---------------------------------------------------------------------
  // registerClient

  /** Reuse branch: the cached client becomes current and the gate opens,
      with no thread started and no remote call. */
  lemma ReuseBranch(s: State, registrationId: Option<string>)
    requires Valid(s)
    requires CanReuse(s.cachedClient, s.config.applicationId, registrationId)
    ensures var t := RegisterClient(s, registrationId);
            && t.client == s.cachedClient && t.client.Some?
            && GateOpen(t) && t.resolved
            && t.pending == s.pending && t.calls == s.calls
            && t.cachedClient == s.cachedClient && t.tags == s.tags && t.config == s.config
  {
  }

  /** Create branch: when reuse fails, one create thread is started and
      nothing else changes; in particular a shut gate stays shut. */
  lemma CreateBranch(s: State, registrationId: Option<string>)
    requires !CanReuse(s.cachedClient, s.config.applicationId, registrationId)
    ensures var t := RegisterClient(s, registrationId);
            && t == s.(pending := s.pending + [CreateClient(registrationId)])
            && (GateOpen(t) <==> GateOpen(s))
  {
  }

  /** The reuse law for a cached client of application A with token T under
      a configuration for A: a null or equal registration id reuses, a
      different one creates; a cached client of another application or an
      empty cache always creates. */
  lemma ReuseLaw(s: State, c: Client, tok: string, other: string)
    requires s.cachedClient == Some(c) && c.token == Some(tok)
    requires c.applicationId == s.config.applicationId
    requires other != tok
    ensures RegisterClient(s, None).resolved && RegisterClient(s, None).pending == s.pending
    ensures RegisterClient(s, Some(tok)).resolved && RegisterClient(s, Some(tok)).pending == s.pending
    ensures RegisterClient(s, Some(other)).pending == s.pending + [CreateClient(Some(other))]
  {
  }

  lemma NoReuseWithoutMatchingCache(cached: Option<Client>, applicationId: int,
                                    registrationId: Option<string>)
    requires cached.None? || cached.value.applicationId != applicationId
    ensures !CanReuse(cached, applicationId, registrationId)
  {
  }

  /** Create step: the request carries the registration id and the
      configuration. On success the returned client is current, cached, and
      the gate open; on failure client, cache and latch are as before, so a
      shut gate stays shut. */
  lemma CreateOutcome(s: State, i: nat, created: Outcome<Client>)
    requires i < |s.pending| && s.pending[i].CreateClient?
    ensures var t := CreateClientStep(s, i, created);
            && t.calls == s.calls + [ClientRequest(s.pending[i].registrationId, s.config.applicationId,
                                                   s.config.secret, s.config.environment)]
            && t.pending == Remove(s.pending, i)
            && t.tags == s.tags && t.config == s.config
            && (created.Success? ==>
                  t.client == Some(created.value) && t.cachedClient == Some(created.value) && t.resolved)
            && (created.Failure? ==>
                  t.client == s.client && t.cachedClient == s.cachedClient && t.resolved == s.resolved
                  && (GateOpen(t) <==> GateOpen(s)))
  {
  }

  /** A failed token fetch ends the thread with nothing else changed. */
  lemma TokenFailureAbandons(s: State, i: nat, message: string)
    requires i < |s.pending| && s.pending[i].FetchToken?
    ensures FetchTokenStep(s, i, Failure(message)) == s.(pending := Remove(s.pending, i))
  {
  }

  // ---------------------------------------------------------------------
  // The gate

  /** Under the invariant the gate condition is the latch being open, and an
      open gate means a current client, the one in the store. */
  lemma GateMeansRegistered(s: State)
    requires Valid(s)
    ensures GateOpen(s) <==> s.resolved
    ensures GateOpen(s) ==> s.client.Some? && s.client == s.cachedClient
  {
  }

  /** A dependent thread does nothing while the gate is shut, and once it is
      open its step makes exactly one call, carrying the current client, and
      retires its task. */
  lemma DependentSendWaitsForGate(s: State, i: nat, timestamp: Outcome<string>, savedTag: Outcome<Tag>)
    requires Valid(s)
    requires i < |s.pending|
    ensures s.pending[i].SendEvent? && !GateOpen(s) ==> SendEventStep(s, i, timestamp) == s
    ensures s.pending[i].SendTag? && !GateOpen(s) ==> SendTagStep(s, i, savedTag) == s
    ensures s.pending[i].SendEvent? && GateOpen(s) ==>
              var t := SendEventStep(s, i, timestamp);
              && t.calls == s.calls + [EventRequest(s.client, s.pending[i].name, s.pending[i].value)]
              && s.client.Some?
              && multiset(t.pending) + multiset{s.pending[i]} == multiset(s.pending)
    ensures s.pending[i].SendTag? && GateOpen(s) ==>
              var t := SendTagStep(s, i, savedTag);
              && t.calls == s.calls + [TagRequest(s.client, s.pending[i].name, s.pending[i].value)]
              && s.client.Some?
              && multiset(t.pending) + multiset{s.pending[i]} == multiset(s.pending)
  {
  }

  /** Failure containment: after a failed create with the gate shut, every
      event or tag thread remains parked. */
  lemma FailedCreateKeepsSendsBlocked(s: State, i: nat, message: string, j: nat,
                                      timestamp: Outcome<string>, savedTag: Outcome<Tag>)
    requires Valid(s) && !GateOpen(s)
    requires i < |s.pending| && s.pending[i].CreateClient?
    ensures var t := CreateClientStep(s, i, Failure(message));
            && !GateOpen(t)
            && (j < |t.pending| && t.pending[j].SendEvent? ==> SendEventStep(t, j, timestamp) == t)
            && (j < |t.pending| && t.pending[j].SendTag? ==> SendTagStep(t, j, savedTag) == t)
  {
  }

  // ---------------------------------------------------------------------
  // Events and tags

  /** trackEvent and its thread never touch the client, the latch or the
      store. */
  lemma TrackEventLeavesStoresAlone(s: State, name: string, value: Option<string>,
                                    i: nat, timestamp: Outcome<string>)
    requires i < |s.pending| && s.pending[i].SendEvent?
    ensures var t := TrackEvent(s, name, value);
            t == s.(pending := s.pending + [SendEvent(name, value)])
    ensures var t := SendEventStep(s, i, timestamp);
            && t.client == s.client && t.resolved == s.resolved
            && t.cachedClient == s.cachedClient && t.tags == s.tags && t.config == s.config
  {
  }

  /** setTag: a stored tag whose value equals the new one ignoring case
      short-circuits with nothing changed; a null value against a stored tag
      throws NullPointerException with nothing changed; otherwise one tag
      thread is started. */
  lemma SetTagShortCircuit(s: State, name: string, value: Option<string>)
    ensures name in s.tags && value.Some? && s.tags[name].value.Some?
            && EqualsIgnoreCase(value.value, s.tags[name].value.value) ==>
              SetTag(s, name, value) == (s, Returned)
    ensures name in s.tags && value.None? ==>
              SetTag(s, name, value) == (s, Threw(NullPointerException))
    ensures name !in s.tags ==>
              SetTag(s, name, value) == (s.(pending := s.pending + [SendTag(name, value)]), Returned)
  {
  }

  /** With "OS" stored as "Android", setting "OS" to "android" does nothing. */
  lemma SetTagIgnoresCaseExample(s: State)
    requires "OS" in s.tags && s.tags["OS"] == Tag("OS", Some("Android"))
    ensures SetTag(s, "OS", Some("android")) == (s, Returned)
  {
  }

  /** A skip does not depend on the case of the new value: a value equal to
      a skipped one ignoring case is skipped too. */
  lemma SkipIsCaseInsensitive(stored: Option<Tag>, v: string, w: string)
    requires DecideTag(stored, Some(v)) == Skip
    requires EqualsIgnoreCase(v, w)
    ensures DecideTag(stored, Some(w)) == Skip
  {
  }

  /** The tag thread on an open gate: a success files the returned tag under
      its name and leaves every other name as it was; a failure leaves the
      store unchanged. It never touches the client or the latch. */
  lemma SendTagUpdatesOneEntry(s: State, i: nat, savedTag: Outcome<Tag>)
    requires i < |s.pending| && s.pending[i].SendTag? && GateOpen(s)
    ensures var t := SendTagStep(s, i, savedTag);
            && (savedTag.Success? ==>
                  FetchTag(t.tags, savedTag.value.name) == Some(savedTag.value)
                  && forall n :: n != savedTag.value.name ==> FetchTag(t.tags, n) == FetchTag(s.tags, n))
            && (savedTag.Failure? ==> t.tags == s.tags)
            && t.client == s.client && t.resolved == s.resolved && t.cachedClient == s.cachedClient
  {
  }

  /** Once the server has confirmed a tag under the name it was sent with, a
      later setTag of any value equal to it ignoring case sends nothing. */
  lemma ConfirmedTagShortCircuits(s: State, i: nat, name: string, v: string, w: string)
    requires i < |s.pending| && s.pending[i].SendTag? && GateOpen(s)
    requires EqualsIgnoreCase(v, w)
    ensures var t := SendTagStep(s, i, Success(Tag(name, Some(v))));
            SetTag(t, name, Some(w)) == (t, Returned)
  {
  }

  /** The send-tag tasks scheduled for a list of pairs none of which is
      stored. */
  function TagTasks(pairs: seq<(string, Option<string>)>): (r: seq<Task>)
    ensures |r| == |pairs|
    ensures forall k :: 0 <= k < |pairs| ==> r[k] == SendTag(pairs[k].0, pairs[k].1)
  {
    if pairs == [] then [] else [SendTag(pairs[0].0, pairs[0].1)] + TagTasks(pairs[1..])
  }

  /** setTag over a list only ever appends send-tag tasks; nothing else in
      the state changes. */
  lemma {:induction false} SetTagsOnlySchedules(s: State, pairs: seq<(string, Option<string>)>)
    ensures var t := SetTags(s, pairs).0;
            && t == s.(pending := t.pending)
            && s.pending <= t.pending
            && forall k :: |s.pending| <= k < |t.pending| ==> t.pending[k].SendTag?
    decreases |pairs|
  {
    if pairs != [] {
      var (t, status) := SetTag(s, pairs[0].0, pairs[0].1);
      if !status.Threw? {
        SetTagsOnlySchedules(t, pairs[1..]);
      }
    }
  }

  /** setTag of a name that is not stored starts its thread. */
  lemma SetTagOfNewName(s: State, name: string, value: Option<string>)
    requires name !in s.tags
    ensures SetTag(s, name, value) == (s.(pending := s.pending + [SendTag(name, value)]), Returned)
  {
  }

  /** When none of the names is stored, every pair gets its thread, in
      order, and no exception is thrown, whatever the values. */
  lemma {:induction false} SetTagsAllNew(s: State, pairs: seq<(string, Option<string>)>)
    requires forall k :: 0 <= k < |pairs| ==> pairs[k].0 !in s.tags
    ensures SetTags(s, pairs) == (s.(pending := s.pending + TagTasks(pairs)), Returned)
    decreases |pairs|
  {
    if pairs != [] {
      var (name, value) := pairs[0];
      var rest := pairs[1..];
      var t := s.(pending := s.pending + [SendTag(name, value)]);
      SetTagOfNewName(s, name, value);
      assert SetTags(s, pairs) == SetTags(t, rest);
      forall k | 0 <= k < |rest| ensures rest[k].0 !in t.tags {
        assert rest[k] == pairs[k + 1];
      }
      SetTagsAllNew(t, rest);
      assert TagTasks(pairs) == [SendTag(name, value)] + TagTasks(rest);
      assert t.pending + TagTasks(rest) == s.pending + TagTasks(pairs);
    } else {
      assert s.pending + TagTasks(pairs) == s.pending;
    }
  }

  /** setDeviceTags on a fresh store schedules the six device tags in the
      source's order. */
  lemma DeviceTagsOnFreshStore(s: State, d: DeviceInfo)
    requires s.config.initialized && s.tags == map[]
    ensures SetDeviceTags(s, d) ==
            (s.(pending := s.pending + [SendTag("Device", d.device), SendTag("OS", d.os),
                                        SendTag("Language", d.language), SendTag("Time Zone", d.timeZone),
                                        SendTag("Version", d.version), SendTag("Build", d.build)]),
             Returned)
  {
    SetTagsAllNew(s, DeviceTags(d));
    assert TagTasks(DeviceTags(d)) ==
           [SendTag("Device", d.device), SendTag("OS", d.os),
            SendTag("Language", d.language), SendTag("Time Zone", d.timeZone),
            SendTag("Version", d.version), SendTag("Build", d.build)];
  }

  /** A null device value whose tag is already stored throws out of
      setDeviceTags; the tags after it are not attempted. */
  lemma DeviceTagsStopAtNull(s: State, d: DeviceInfo)
    requires s.config.initialized
    requires "Device" in s.tags && d.device.None?
    ensures SetDeviceTags(s, d) == (s, Threw(NullPointerException))
  {
  }

  // ---------------------------------------------------------------------
  // Whole runs

  /** One operation keeps the invariant and never undoes a configuration,
      an open latch, a current client or a call made. */
  lemma ApplyPreserves(s: State, op: Op)
    requires Valid(s)
    ensures Valid(Apply(s, op)) && Evolves(s, Apply(s, op))
  {
    if op.SetDeviceTagsOp? && s.config.initialized {
      SetTagsOnlySchedules(s, DeviceTags(op.device));
    }
  }

  /** The same for any run of facade calls and thread steps, from any
      reachable state: the latch never closes again, the first configuration
      stays, and no event or tag is ever sent without a client. */
  lemma {:induction false} RunPreserves(s: State, ops: seq<Op>)
    requires Valid(s)
    ensures Valid(Run(s, ops)) && Evolves(s, Run(s, ops))
    decreases |ops|
  {
    if ops != [] {
      ApplyPreserves(s, ops[0]);
      RunPreserves(Apply(s, ops[0]), ops[1..]);
    }
  }

  /** Every run from the singleton's initial state keeps the invariant. */
  lemma ReachableStatesAreValid(storedClient: Option<Client>, storedTags: map<string, Tag>, ops: seq<Op>)
    ensures Valid(Run(Initial(storedClient, storedTags), ops))
  {
    RunPreserves(Initial(storedClient, storedTags), ops);
  }
}
