/** The GrowthPush singleton as an object with mutable fields. Each method
    changes the fields the way the Java method does and is specified by the
    matching function of module Machine over Snapshot(); the properties are
    proved about those functions in module Properties. */
module Facade {
  import opened Wrappers
  import opened Model
  import Machine

  class GrowthPush {
    // configuration (initialized stands for `context != null`)
    var initialized: bool
    var applicationId: int
    var secret: Option<string>
    var environment: Option<Environment>
    var debug: bool
    // the current client and the CountDownLatch(1): resolved once counted down
    var client: Option<Client>
    var resolved: bool
    // the persistent store
    var cachedClient: Option<Client>
    var tags: map<string, Tag>
    // started threads and remote calls made
    var pending: seq<Machine.Task>
    var calls: seq<Machine.Request>

    /** The fields as one state value. */
    function Snapshot(): Machine.State
      reads this
    {
      Machine.State(Machine.Configuration(initialized, applicationId, secret, environment, debug),
                    client, resolved, cachedClient, tags, pending, calls)
    }

    ghost predicate Valid()
      reads this
    {
      Machine.Valid(Snapshot())
    }

    /** The singleton as created, over what the store already holds. */
    constructor (storedClient: Option<Client>, storedTags: map<string, Tag>)
      ensures Valid()
      ensures Snapshot() == Machine.Initial(storedClient, storedTags)
    {
      initialized, applicationId, secret, environment, debug := false, 0, None, None, false;
      client, resolved := None, false;
      cachedClient, tags := storedClient, storedTags;
      pending, calls := [], [];
    }

    method Initialize(context: bool, applicationId: int, secret: Option<string>,
                      environment: Option<Environment>, debug: bool)
      requires Valid()
      modifies this
      ensures Valid()
      ensures Snapshot() == Machine.Initialize(old(Snapshot()), context, applicationId,
                                               secret, environment, debug)
    {
      if initialized {
        return;
      }
      this.initialized := context;
      this.applicationId := applicationId;
      this.secret := secret;
      this.environment := environment;
      this.debug := debug;
    }

    /** The three-argument overload: production, no debug output. */
    method InitializeDefaults(context: bool, applicationId: int, secret: Option<string>)
      requires Valid()
      modifies this
      ensures Valid()
      ensures Snapshot() == Machine.Initialize(old(Snapshot()), context, applicationId,
                                               secret, Some(Production), false)
    {
      Initialize(context, applicationId, secret, Some(Production), false);
    }

    /** The four-argument overload: no debug output. */
    method InitializeInEnvironment(context: bool, applicationId: int, secret: Option<string>,
                                   environment: Option<Environment>)
      requires Valid()
      modifies this
      ensures Valid()
      ensures Snapshot() == Machine.Initialize(old(Snapshot()), context, applicationId,
                                               secret, environment, false)
    {
      Initialize(context, applicationId, secret, environment, false);
    }

    method Register(senderId: string) returns (status: Machine.Status)
      requires Valid()
      modifies this
      ensures Valid()
      ensures (Snapshot(), status) == Machine.Register(old(Snapshot()), senderId)
    {
      if !initialized {
        return Machine.Threw(Machine.IllegalStateException);
      }
      pending := pending + [Machine.FetchToken(senderId)];
      status := Machine.Returned;
    }

    method RegisterClient(registrationId: Option<string>)
      requires Valid()
      modifies this
      ensures Valid()
      ensures Snapshot() == Machine.RegisterClient(old(Snapshot()), registrationId)
    {
      var cached := cachedClient;
      if Machine.CanReuse(cached, applicationId, registrationId) {
        client := cached;
        resolved := true;
        return;
      }
      pending := pending + [Machine.CreateClient(registrationId)];
    }

    /** Runs the register thread at index i, whose token fetch ended with
        `token`. */
    method RunFetchToken(i: nat, token: Outcome<string>)
      requires Valid()
      requires i < |pending| && pending[i].FetchToken?
      modifies this
      ensures Valid()
      ensures Snapshot() == Machine.FetchTokenStep(old(Snapshot()), i, token)
    {
      pending := Machine.Remove(pending, i);
      match token {
        case Success(t) => RegisterClient(Some(t));
        case Failure(_) =>
      }
    }

    /** Runs the create thread at index i, whose remote call ended with
        `created`. */
    method RunCreateClient(i: nat, created: Outcome<Client>)
      requires Valid()
      requires i < |pending| && pending[i].CreateClient?
      modifies this
      ensures Valid()
      ensures Snapshot() == Machine.CreateClientStep(old(Snapshot()), i, created)
    {
      var request := Machine.ClientRequest(pending[i].registrationId, applicationId,
                                           secret, environment);
      pending := Machine.Remove(pending, i);
      calls := calls + [request];
      match created {
        case Success(c) =>
          client := Some(c);
          cachedClient := Some(c);
          resolved := true;
        case Failure(_) =>
      }
    }

    /** The test of waitClientRegistration: a client is set or the latch is
        open. */
    function ClientRegistrationDone(): (done: bool)
      reads this
      requires Valid()
      ensures done <==> resolved
      ensures done ==> client.Some? && client == cachedClient
      ensures done == Machine.GateOpen(Snapshot())
    {
      client.Some? || resolved
    }

    method TrackEvent(name: string, value: Option<string>)
      requires Valid()
      modifies this
      ensures Valid()
      ensures Snapshot() == Machine.TrackEvent(old(Snapshot()), name, value)
    {
      pending := pending + [Machine.SendEvent(name, value)];
    }

    /** The one-argument overload: a null value. */
    method TrackEventWithoutValue(name: string)
      requires Valid()
      modifies this
      ensures Valid()
      ensures Snapshot() == Machine.TrackEvent(old(Snapshot()), name, None)
    {
      TrackEvent(name, None);
    }

    /** Runs the event thread at index i, if the gate lets it; `proceeded`
        says whether it did. */
    method RunSendEvent(i: nat, timestamp: Outcome<string>) returns (proceeded: bool)
      requires Valid()
      requires i < |pending| && pending[i].SendEvent?
      modifies this
      ensures Valid()
      ensures proceeded == Machine.GateOpen(old(Snapshot()))
      ensures Snapshot() == Machine.SendEventStep(old(Snapshot()), i, timestamp)
    {
      if !ClientRegistrationDone() {
        return false;
      }
      var task := pending[i];
      pending := Machine.Remove(pending, i);
      calls := calls + [Machine.EventRequest(client, task.name, task.value)];
      proceeded := true;
    }

    method SetTag(name: string, value: Option<string>) returns (status: Machine.Status)
      requires Valid()
      modifies this
      ensures Valid()
      ensures (Snapshot(), status) == Machine.SetTag(old(Snapshot()), name, value)
    {
      var stored := Machine.FetchTag(tags, name);
      match Machine.DecideTag(stored, value) {
        case Skip =>
          status := Machine.Returned;
        case NullValue =>
          status := Machine.Threw(Machine.NullPointerException);
        case Send =>
          pending := pending + [Machine.SendTag(name, value)];
          status := Machine.Returned;
      }
    }

    /** The one-argument overload: a null value, which throws when the tag is
        stored. */
    method SetTagWithoutValue(name: string) returns (status: Machine.Status)
      requires Valid()
      modifies this
      ensures Valid()
      ensures (Snapshot(), status) == Machine.SetTag(old(Snapshot()), name, None)
    {
      status := SetTag(name, None);
    }

    /** Runs the tag thread at index i, if the gate lets it; `proceeded`
        says whether it did. */
    method RunSendTag(i: nat, savedTag: Outcome<Tag>) returns (proceeded: bool)
      requires Valid()
      requires i < |pending| && pending[i].SendTag?
      modifies this
      ensures Valid()
      ensures proceeded == Machine.GateOpen(old(Snapshot()))
      ensures Snapshot() == Machine.SendTagStep(old(Snapshot()), i, savedTag)
    {
      if !ClientRegistrationDone() {
        return false;
      }
      var task := pending[i];
      pending := Machine.Remove(pending, i);
      calls := calls + [Machine.TagRequest(client, task.name, task.value)];
      match savedTag {
        case Success(tag) => tags := tags[tag.name := tag];
        case Failure(_) =>
      }
      proceeded := true;
    }

    method SetDeviceTags(device: Machine.DeviceInfo) returns (status: Machine.Status)
      requires Valid()
      modifies this
      ensures Valid()
      ensures (Snapshot(), status) == Machine.SetDeviceTags(old(Snapshot()), device)
    {
      if !initialized {
        return Machine.Threw(Machine.IllegalStateException);
      }
      // `rest` is what is left of the six pairs; the run so far leaves
      // Machine.SetTags(Snapshot(), rest) equal to the whole run's result.
      ghost var rest := Machine.DeviceTags(device);
      ghost var before := Snapshot();
      status := SetTag("Device", device.device);
      assert Machine.SetTags(before, rest) == if status.Threw? then (Snapshot(), status) else Machine.SetTags(Snapshot(), rest[1..]);
      if status.Threw? { return; }
      rest, before := rest[1..], Snapshot();
      status := SetTag("OS", device.os);
      assert Machine.SetTags(before, rest) == if status.Threw? then (Snapshot(), status) else Machine.SetTags(Snapshot(), rest[1..]);
      if status.Threw? { return; }
      rest, before := rest[1..], Snapshot();
      status := SetTag("Language", device.language);
      assert Machine.SetTags(before, rest) == if status.Threw? then (Snapshot(), status) else Machine.SetTags(Snapshot(), rest[1..]);
      if status.Threw? { return; }
      rest, before := rest[1..], Snapshot();
      status := SetTag("Time Zone", device.timeZone);
      assert Machine.SetTags(before, rest) == if status.Threw? then (Snapshot(), status) else Machine.SetTags(Snapshot(), rest[1..]);
      if status.Threw? { return; }
      rest, before := rest[1..], Snapshot();
      status := SetTag("Version", device.version);
      assert Machine.SetTags(before, rest) == if status.Threw? then (Snapshot(), status) else Machine.SetTags(Snapshot(), rest[1..]);
      if status.Threw? { return; }
      rest, before := rest[1..], Snapshot();
      status := SetTag("Build", device.build);
      assert rest[1..] == [];
    }

    function GetApplicationId(): (id: int)
      reads this
      ensures id == Snapshot().config.applicationId
    {
      applicationId
    }

    function GetSecret(): (s: Option<string>)
      reads this
      ensures s == Snapshot().config.secret
    {
      secret
    }

    /** The current client: present exactly when the gate is open, and then
        the client held in the store. */
    function GetClient(): (c: Option<Client>)
      reads this
      requires Valid()
      ensures c.Some? <==> Machine.GateOpen(Snapshot())
      ensures c.Some? ==> c == cachedClient
    {
      client
    }
  }

  /** A first-time installation: initialize(42, "s", production), trackEvent
      ("launch") issued before registration finishes, register("sender1")
      whose token fetch yields "tok-A", and a create call answered with
      client 7. The event is held until the client is current and is then
      sent with it. */
  method FirstLaunchScenario() returns (heldBack: bool, calls: seq<Machine.Request>)
    ensures heldBack
    ensures calls == [Machine.ClientRequest(Some("tok-A"), 42, Some("s"), Some(Production)),
                      Machine.EventRequest(Some(Client(7, 42, Some("tok-A"), Some(Production))),
                                           "launch", None)]
  {
    var gp := new GrowthPush(None, map[]);
    gp.Initialize(true, 42, Some("s"), Some(Production), false);
    gp.TrackEventWithoutValue("launch");
    var status := gp.Register("sender1");
    assert gp.pending == [Machine.SendEvent("launch", None), Machine.FetchToken("sender1")];
    gp.RunFetchToken(1, Success("tok-A"));
    assert gp.pending == [Machine.SendEvent("launch", None), Machine.CreateClient(Some("tok-A"))];
    var proceeded := gp.RunSendEvent(0, Success("2013-08-12"));
    heldBack := !proceeded;
    gp.RunCreateClient(1, Success(Client(7, 42, Some("tok-A"), Some(Production))));
    proceeded := gp.RunSendEvent(0, Success("2013-08-12"));
    calls := gp.calls;
  }

  /** A failed create call leaves the gate shut, so an event tracked
      afterwards is never sent. */
  method FailedRegistrationScenario() returns (proceeded: bool, calls: seq<Machine.Request>)
    ensures !proceeded
    ensures calls == [Machine.ClientRequest(Some("tok-A"), 42, Some("s"), Some(Production))]
  {
    var gp := new GrowthPush(None, map[]);
    gp.Initialize(true, 42, Some("s"), Some(Production), false);
    gp.RegisterClient(Some("tok-A"));
    gp.RunCreateClient(0, Failure("503"));
    gp.TrackEvent("launch", None);
    proceeded := gp.RunSendEvent(0, Success("2013-08-12"));
    calls := gp.calls;
  }

  /** A later launch with the client already in the store and the same
      token: no remote call is made and the gate opens at once. */
  method RelaunchScenario() returns (open: bool, calls: seq<Machine.Request>)
    ensures open && calls == []
  {
    var cached := Client(7, 42, Some("tok-A"), Some(Production));
    var gp := new GrowthPush(Some(cached), map[]);
    gp.Initialize(true, 42, Some("s"), Some(Production), false);
    gp.RegisterClient(Some("tok-A"));
    open := gp.ClientRegistrationDone();
    calls := gp.calls;
  }
}
