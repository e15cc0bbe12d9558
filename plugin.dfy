/** The plugin object of the Android bridge: whether Health Connect is
    available, the client it connected to, the single slot that remembers
    the permission request awaiting the system dialog's answer, and the
    answers it gives to JavaScript calls. */
module Plugin {
  import opened Results
  import opened PermissionCatalog
  import opened PermissionLookup
  import opened PermissionGate
  import opened Platform
  import opened Json
  import Aggregation
  import Workouts
  import Vitals

  /** A JavaScript call, by identity: the model never looks inside one. */
  type CallId = nat

  /** What a call is finally answered with: `call.resolve(payload)` or
      `call.reject(message)`. */
  datatype Response = Resolved(call: CallId, payload: map<string, JsValue>) | Rejected(call: CallId, message: string)

  /** `RequestPermissionContext`: the permissions asked for and the call to
      answer once the dialog returns. */
  datatype RequestPermissionContext = RequestPermissionContext(requestedPermissions: set<Permission>, pluginCall: CallId)

  /** The message Kotlin gives when `healthConnectClient` is read before it
      was ever assigned. */
  const LateinitMessage: string := "lateinit property healthConnectClient has not been initialized"

  /** The client before `isHealthAvailable` connected one: every call on it
      throws the `lateinit` error. */
  const Unconnected: HealthConnect := HealthConnect(
    Failure(LateinitMessage),
    (m, r) => Failure(LateinitMessage),
    (m, r, p) => Failure(LateinitMessage),
    Failure(LateinitMessage),
    r => Failure(LateinitMessage),
    Failure(LateinitMessage),
    Failure(LateinitMessage),
    Failure(LateinitMessage),
    Failure(LateinitMessage))

  /** How an outcome answers a call. */
  function Reply(call: CallId, r: Result<map<string, JsValue>>): Response
  {
    if r.Success? then Resolved(call, r.value) else Rejected(call, r.error)
  }

  /** The payload of `grantedPermissionResult`: one boolean per requested
      permission, under its name. */
  function PermissionsPayload(result: map<string, bool>): map<string, JsValue>
  {
    map["permissions" := JObj(map name | name in result :: JBool(result[name]))]
  }

  /** `r` answers `call` with a boolean for each requested permission, under
      its name and nothing else, telling whether it is among `granted`. */
  ghost predicate AnswersPermissions(r: Response, call: CallId, requested: set<Permission>, granted: set<string>)
  {
    && r.Resolved? && r.call == call
    && r.payload.Keys == {"permissions"} && r.payload["permissions"].JObj?
    && r.payload["permissions"].fields.Keys == (set p | p in requested :: Name(p))
    && forall p :: p in requested ==> r.payload["permissions"].fields[Name(p)] == JBool(IsGranted(p, granted))
  }

  /** The strings handed to the permission dialog: the native name of each
      requested permission. */
  function NativePermissions(permissions: set<Permission>): set<string>
  {
    set p | p in permissions :: HealthPrefix + NativeName(p)
  }

  /** The payload of `queryWorkouts`. */
  function WorkoutsPayload(r: Result<seq<map<string, JsValue>>>): Result<map<string, JsValue>>
  {
    if r.Failure? then Failure(r.error)
    else Success(map["workouts" := JArr(seq(|r.value|, i requires 0 <= i < |r.value| => JObj(r.value[i])))])
  }

  /** `AggregatedSample.toJs`. */
  function SampleJs(s: Aggregation.AggregatedSample): JsValue
  {
    JObj(map["startDate" := JTime(s.startDate), "endDate" := JTime(s.endDate),
             "value" := if s.value.Some? then JNum(s.value.value) else JNull])
  }

  /** The payload of `queryAggregated`. */
  function AggregatedPayload(r: Result<seq<Aggregation.AggregatedSample>>): Result<map<string, JsValue>>
  {
    if r.Failure? then Failure(r.error)
    else Success(map["aggregatedData" := JArr(seq(|r.value|, i requires 0 <= i < |r.value| => SampleJs(r.value[i])))])
  }

  class HealthPlugin {
    var available: bool
    /** `healthConnectClient`; `Unconnected` until it is assigned. */
    var client: HealthConnect
    /** `requestPermissionContext`. */
    var requestPermissionContext: Option<RequestPermissionContext>
    /** Every answer given so far, in order. */
    var responses: seq<Response>
    /** The permission sets handed to the dialog so far, in order. */
    var launched: seq<set<string>>

    /** The plugin as `load` leaves it. */
    constructor ()
      ensures !available && client == Unconnected
      ensures requestPermissionContext == None && responses == [] && launched == []
    {
      available := false;
      client := Unconnected;
      requestPermissionContext := None;
      responses := [];
      launched := [];
    }

    /** `isHealthAvailable`: connects once; `created` is what
        `HealthConnectClient.getOrCreate` returns or throws. A failed
        attempt is logged and reported as unavailable. */
    method IsHealthAvailable(call: CallId, created: Result<HealthConnect>)
      modifies this
      ensures available == (old(available) || created.Success?)
      ensures client == (if !old(available) && created.Success? then created.value else old(client))
      ensures responses == old(responses) + [Resolved(call, map["available" := JBool(available)])]
      ensures requestPermissionContext == old(requestPermissionContext) && launched == old(launched)
    {
      if !available {
        if created.Success? {
          client := created.value;
          available := true;
        } else {
          available := false;
        }
      }
      responses := responses + [Resolved(call, map["available" := JBool(available)])];
    }

    /** `checkHealthPermissions`: names that are no permission are dropped;
        the granted set is read from the client, whose failure is reported. */
    method CheckHealthPermissions(call: CallId, permissions: Option<seq<string>>)
      modifies this
      ensures permissions.None? ==> responses == old(responses) + [Rejected(call, "Must provide permissions to check")]
      ensures permissions.Some? && client.grantedPermissions.Failure? ==>
        responses == old(responses) + [Rejected(call, "Checking permissions failed: " + client.grantedPermissions.error)]
      ensures permissions.Some? && client.grantedPermissions.Success? ==>
        && |responses| == |old(responses)| + 1 && responses[..|old(responses)|] == old(responses)
        && AnswersPermissions(responses[|old(responses)|], call, ParsePermissions(permissions.value),
                              client.grantedPermissions.value)
      ensures available == old(available) && client == old(client)
      ensures requestPermissionContext == old(requestPermissionContext) && launched == old(launched)
    {
      if permissions.None? {
        responses := responses + [Rejected(call, "Must provide permissions to check")];
        return;
      }
      var requested := ParsePermissions(permissions.value);
      if client.grantedPermissions.Failure? {
        responses := responses + [Rejected(call, "Checking permissions failed: " + client.grantedPermissions.error)];
        return;
      }
      var result := GrantedPermissionResult(requested, client.grantedPermissions.value);
      responses := responses + [Resolved(call, PermissionsPayload(result))];
    }

    /** `requestHealthPermissions`: remembers the request in the one slot,
        replacing any request still waiting, and opens the dialog; `launch`
        is whether opening it throws, in which case the call is rejected
        and the slot emptied. */
    method RequestHealthPermissions(call: CallId, permissions: Option<seq<string>>, launch: Result<()>)
      modifies this
      ensures permissions.None? ==>
        && responses == old(responses) + [Rejected(call, "Must provide permissions to request")]
        && requestPermissionContext == old(requestPermissionContext) && launched == old(launched)
      ensures permissions.Some? && launch.Success? ==>
        && requestPermissionContext == Some(RequestPermissionContext(ParsePermissions(permissions.value), call))
        && launched == old(launched) + [NativePermissions(ParsePermissions(permissions.value))]
        && responses == old(responses)
      ensures permissions.Some? && launch.Failure? ==>
        && requestPermissionContext == None && launched == old(launched)
        && responses == old(responses) + [Rejected(call, "Permission request failed: " + launch.error)]
      ensures available == old(available) && client == old(client)
    {
      if permissions.None? {
        responses := responses + [Rejected(call, "Must provide permissions to request")];
        return;
      }
      var requested := ParsePermissions(permissions.value);
      var healthConnectPermissions := NativePermissions(requested);
      requestPermissionContext := Some(RequestPermissionContext(requested, call));
      if launch.Failure? {
        responses := responses + [Rejected(call, "Permission request failed: " + launch.error)];
        requestPermissionContext := None;
        return;
      }
      launched := launched + [healthConnectPermissions];
    }

    /** The dialog's callback: answers the remembered request with the
        permissions the user granted, and leaves the slot as it is. */
    method OnPermissionResult(grantedPermissions: set<string>)
      modifies this
      ensures requestPermissionContext == old(requestPermissionContext)
      ensures old(requestPermissionContext).None? ==> responses == old(responses)
      ensures old(requestPermissionContext).Some? ==>
        && |responses| == |old(responses)| + 1 && responses[..|old(responses)|] == old(responses)
        && AnswersPermissions(responses[|old(responses)|], old(requestPermissionContext).value.pluginCall,
                              old(requestPermissionContext).value.requestedPermissions, grantedPermissions)
      ensures available == old(available) && client == old(client) && launched == old(launched)
    {
      var context := requestPermissionContext;
      if context.Some? {
        var result := GrantedPermissionResult(context.value.requestedPermissions, grantedPermissions);
        responses := responses + [Resolved(context.value.pluginCall, PermissionsPayload(result))];
      }
    }

    /** Appends the answer an outcome gives. */
    method Answer(call: CallId, r: Result<map<string, JsValue>>)
      modifies this
      ensures responses == old(responses) + [Reply(call, r)]
      ensures available == old(available) && client == old(client)
      ensures requestPermissionContext == old(requestPermissionContext) && launched == old(launched)
    {
      responses := responses + [Reply(call, r)];
    }

    /** `queryAggregated` on the current client. */
    method QueryAggregated(call: CallId, startDate: Option<Instant>, endDate: Option<Instant>,
                           dataType: Option<string>, bucket: Option<string>)
      modifies this
      ensures responses == old(responses) +
        [Reply(call, AggregatedPayload(Aggregation.QueryAggregated(client, startDate, endDate, dataType, bucket)))]
      ensures available == old(available) && client == old(client)
      ensures requestPermissionContext == old(requestPermissionContext) && launched == old(launched)
    {
      Answer(call, AggregatedPayload(Aggregation.QueryAggregated(client, startDate, endDate, dataType, bucket)));
    }

    /** `queryWorkouts` on the current client. */
    method QueryWorkouts(call: CallId, startDate: Option<Instant>, endDate: Option<Instant>,
                         opts: Workouts.WorkoutOptions)
      modifies this
      ensures responses == old(responses) +
        [Reply(call, WorkoutsPayload(Workouts.QueryWorkoutsResult(client, startDate, endDate, opts)))]
      ensures available == old(available) && client == old(client)
      ensures requestPermissionContext == old(requestPermissionContext) && launched == old(launched)
    {
      var r := Workouts.QueryWorkouts(client, startDate, endDate, opts);
      Answer(call, WorkoutsPayload(r));
    }

    /** `querySleep` on the current client. */
    method QuerySleep(call: CallId, startDate: Option<Instant>, endDate: Option<Instant>)
      modifies this
      ensures responses == old(responses) + [Reply(call, Vitals.QuerySleepResult(client, startDate, endDate))]
      ensures available == old(available) && client == old(client)
      ensures requestPermissionContext == old(requestPermissionContext) && launched == old(launched)
    {
      var r := Vitals.QuerySleep(client, startDate, endDate);
      Answer(call, r);
    }

    /** `queryBasalBodyTemperature` on the current client. */
    method QueryBasalBodyTemperature(call: CallId, startDate: Option<Instant>, endDate: Option<Instant>)
      modifies this
      ensures responses == old(responses) +
        [Reply(call, Vitals.QueryBasalBodyTemperatureResult(client, startDate, endDate))]
      ensures available == old(available) && client == old(client)
      ensures requestPermissionContext == old(requestPermissionContext) && launched == old(launched)
    {
      var r := Vitals.QueryBasalBodyTemperature(client, startDate, endDate);
      Answer(call, r);
    }

    /** `queryBloodGlucose` on the current client. */
    method QueryBloodGlucose(call: CallId, startDate: Option<Instant>, endDate: Option<Instant>)
      modifies this
      ensures responses == old(responses) + [Reply(call, Vitals.QueryBloodGlucoseResult(client, startDate, endDate))]
      ensures available == old(available) && client == old(client)
      ensures requestPermissionContext == old(requestPermissionContext) && launched == old(launched)
    {
      var r := Vitals.QueryBloodGlucose(client, startDate, endDate);
      Answer(call, r);
    }

    /** `queryOxygenSaturation` on the current client. */
    method QueryOxygenSaturation(call: CallId, startDate: Option<Instant>, endDate: Option<Instant>)
      modifies this
      ensures responses == old(responses) +
        [Reply(call, Vitals.QueryOxygenSaturationResult(client, startDate, endDate))]
      ensures available == old(available) && client == old(client)
      ensures requestPermissionContext == old(requestPermissionContext) && launched == old(launched)
    {
      var r := Vitals.QueryOxygenSaturation(client, startDate, endDate);
      Answer(call, r);
    }

    /** `queryHeartRate` on the current client. */
    method QueryHeartRate(call: CallId, startDate: Option<Instant>, endDate: Option<Instant>)
      modifies this
      ensures responses == old(responses) + [Reply(call, Vitals.QueryHeartRateResult(client, startDate, endDate))]
      ensures available == old(available) && client == old(client)
      ensures requestPermissionContext == old(requestPermissionContext) && launched == old(launched)
    {
      var r := Vitals.QueryHeartRate(client, startDate, endDate);
      Answer(call, r);
    }
  }

  /** Before a client is connected, every query that gets past its own
      parameter checks is rejected with the `lateinit` error under the
      query's prefix. */
  lemma UnconnectedQueriesFail(startDate: Instant, endDate: Instant, opts: Workouts.WorkoutOptions)
    ensures Workouts.QueryWorkoutsResult(Unconnected, Some(startDate), Some(endDate), opts) ==
      Failure("Error querying workouts: " + LateinitMessage)
    ensures Vitals.QuerySleepResult(Unconnected, Some(startDate), Some(endDate)) ==
      Failure("Error querying sleep sessions: " + LateinitMessage)
    ensures Vitals.QueryHeartRateResult(Unconnected, Some(startDate), Some(endDate)) ==
      Failure("Error querying heart rate: " + LateinitMessage)
  {
  }

  /** The aggregated query as well: validation happens first, then the
      permission query throws. */
  lemma UnconnectedAggregationFails(startDate: Instant, endDate: Instant, dataType: string)
    requires dataType in Aggregation.SupportedDataTypes
    ensures Aggregation.QueryAggregated(Unconnected, Some(startDate), Some(endDate), Some(dataType), Some("day")) ==
      Failure("Error querying aggregated data: " + LateinitMessage)
  {
  }

  /** Two requests before the dialog answers: the second replaces the
      first in the slot, so the first call is never answered and the
      second is answered by every later callback. */
  method SecondRequestTakesTheSlot(first: CallId, second: CallId, names1: seq<string>, names2: seq<string>,
                                   granted1: set<string>, granted2: set<string>)
    returns (answers: seq<Response>)
    requires first != second
    ensures |answers| == 2
    ensures forall r :: r in answers ==> r.Resolved? && r.call == second
    ensures AnswersPermissions(answers[0], second, ParsePermissions(names2), granted1)
    ensures AnswersPermissions(answers[1], second, ParsePermissions(names2), granted2)
  {
    var plugin := new HealthPlugin();
    plugin.RequestHealthPermissions(first, Some(names1), Success(()));
    plugin.RequestHealthPermissions(second, Some(names2), Success(()));
    var waiting := RequestPermissionContext(ParsePermissions(names2), second);
    assert plugin.requestPermissionContext == Some(waiting) && plugin.responses == [];
    plugin.OnPermissionResult(granted1);
    var firstAnswer := plugin.responses[0];
    assert plugin.responses == [firstAnswer];
    plugin.OnPermissionResult(granted2);
    answers := plugin.responses;
    assert answers == [firstAnswer, answers[1]];
  }

  /** A request whose dialog could not be opened leaves no request waiting:
      a later callback answers nothing. */
  method FailedLaunchLeavesNothingWaiting(call: CallId, names: seq<string>, message: string, granted: set<string>)
    returns (answers: seq<Response>)
    ensures answers == [Rejected(call, "Permission request failed: " + message)]
  {
    var plugin := new HealthPlugin();
    plugin.RequestHealthPermissions(call, Some(names), Failure(message));
    plugin.OnPermissionResult(granted);
    answers := plugin.responses;
  }
}
