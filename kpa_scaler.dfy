/** The stateful part of the KPA scaler: the remote scale sub-resource, the
    config cell and the Scale operation that reads the one and updates the other. */
module KpaScaler {
  import opened Wrappers
  import opened ScaleDecision

  /** The errors Scale returns, and the nil dereference it panics on. */
  datatype ScaleError =
    | InvalidApiVersion     // the scale target's API version does not parse
    | GetFailed             // reading the scale sub-resource failed
    | UpdateFailed          // writing the scale sub-resource failed
    | NilConfigDereference  // no config was ever installed: the source panics here

  /** What receiving a config map does to the config cell. */
  datatype ConfigUpdate =
    | Installed  // the parsed config replaced the stored one
    | Retained   // the parse failed; the error is logged and the previous config kept
    | Fatal      // the parse failed and there is no config: the process exits

  /** The scale sub-resource of one target, reached through the scale client.
      Whether its calls fail is fixed when it is created; gets and updates count the calls. */
  class ScaleClient {
    var replicas: int32
    var gets: nat
    var updates: nat
    const getFails: bool
    const updateFails: bool

    constructor (replicas: int32, getFails: bool, updateFails: bool)
      ensures this.replicas == replicas && gets == 0 && updates == 0
      ensures this.getFails == getFails && this.updateFails == updateFails
    {
      this.replicas := replicas;
      this.gets := 0;
      this.updates := 0;
      this.getFails := getFails;
      this.updateFails := updateFails;
    }

    /** Scales(namespace).Get(resource, name), reduced to the replica count it reads. */
    method Get() returns (current: Option<int32>)
      modifies this`gets
      ensures gets == old(gets) + 1
      ensures current == if getFails then None else Some(replicas)
    {
      gets := gets + 1;
      current := if getFails then None else Some(replicas);
    }

    /** Scales(namespace).Update(resource, scl) with scl.Spec.Replicas set to n;
        a failed update leaves the remote replica count as it was. */
    method Update(n: int32) returns (ok: bool)
      modifies this`replicas, this`updates
      ensures updates == old(updates) + 1
      ensures ok == !updateFails
      ensures replicas == if ok then n else old(replicas)
    {
      updates := updates + 1;
      ok := !updateFails;
      if ok {
        replicas := n;
      }
    }
  }

  /** kpaScaler: holds the autoscaler config cell, read by Scale. */
  class KpaScaler {
    var config: Option<Config>

    constructor ()
      ensures config == None
    {
      config := None;
    }

    /** receiveAutoscalerConfig, given the result of parsing the config map. */
    method ReceiveConfig(parsed: Result<Config, string>) returns (outcome: ConfigUpdate)
      modifies this
      ensures parsed.Ok? ==> outcome == Installed && config == Some(parsed.value)
      ensures parsed.Err? && old(config).Some? ==> outcome == Retained && config == old(config)
      ensures parsed.Err? && old(config).None? ==> outcome == Fatal && config == None
      ensures old(config).Some? ==> config.Some?
    {
      if parsed.Err? {
        if config.Some? {
          outcome := Retained;
        } else {
          outcome := Fatal;
        }
        return;
      }
      outcome := Installed;
      config := Some(parsed.value);
    }

    /** getAutoscalerConfig: a snapshot of the cell (configs are immutable values here). */
    method GetConfig() returns (snapshot: Option<Config>)
      ensures snapshot == config
    {
      snapshot := config;
    }

    /** Scale: decides the replica count for pa's scale target from the suggestion
        desiredScale and applies it through client with at most one update. */
    method Scale(pa: PodAutoscaler, desiredScale: int32, client: ScaleClient) returns (scale: int32, err: Option<ScaleError>)
      modifies client
      ensures client.gets <= old(client.gets) + 1 && client.updates <= old(client.updates) + 1
      ensures !pa.ownedByRevision ==>
                scale == desiredScale && err == None && unchanged(client)
      ensures pa.ownedByRevision && !pa.apiVersionParses ==>
                scale == desiredScale && err == Some(InvalidApiVersion) && unchanged(client)
      ensures pa.ownedByRevision && pa.apiVersionParses ==> client.gets == old(client.gets) + 1
      ensures pa.ownedByRevision && pa.apiVersionParses && client.getFails ==>
                scale == desiredScale && err == Some(GetFailed)
                && client.replicas == old(client.replicas) && client.updates == old(client.updates)
      ensures pa.ownedByRevision && pa.apiVersionParses && !client.getFails ==>
                match Decide(pa, desiredScale, config, old(client.replicas))
                case Report(n) =>
                  scale == n && err == None
                  && client.replicas == old(client.replicas) && client.updates == old(client.updates)
                case Push(n) =>
                  scale == n && client.updates == old(client.updates) + 1
                  && (if client.updateFails
                      then err == Some(UpdateFailed) && client.replicas == old(client.replicas)
                      else err == None && client.replicas == n)
                case NilConfig =>
                  scale == desiredScale && err == Some(NilConfigDereference)
                  && client.replicas == old(client.replicas) && client.updates == old(client.updates)
    {
      if !pa.ownedByRevision {
        return desiredScale, None;
      }
      if !pa.apiVersionParses {
        return desiredScale, Some(InvalidApiVersion);
      }
      var got := client.Get();
      if got.None? {
        return desiredScale, Some(GetFailed);
      }
      var currentScale := got.value;
      var desired := desiredScale;

      if desired == 0 {
        var snapshot := GetConfig();
        if pa.status.activation == Activating {
          desired := ScaleUnknown;
        } else if pa.status.activation == Active {
          if snapshot.None? {
            return desiredScale, Some(NilConfigDereference);
          }
          if pa.status.canMarkInactive(snapshot.value.scaleToZeroIdlePeriod) {
            return desired, None;
          }
          desired := 1;
        } else {
          if snapshot.None? {
            return desiredScale, Some(NilConfigDereference);
          }
          if !pa.status.canScaleToZero(snapshot.value.scaleToZeroGracePeriod) {
            return desired, None;
          }
        }
      }

      if currentScale == 0 && desired == ScaleUnknown {
        desired := 1;
      }
      if desired < 0 {
        return desired, None;
      }

      var newScale := ApplyBounds(pa.minScale, pa.maxScale, desired);
      if newScale != desired {
        desired := newScale;
      }
      if desired == currentScale {
        return desired, None;
      }

      var ok := client.Update(desired);
      if !ok {
        return desired, Some(UpdateFailed);
      }
      return desired, None;
    }
  }

  /** A target at zero that is activating is brought up to one replica by the first
      reconciliation, and the second reconciliation leaves it alone. */
  method ScaleFromZeroScenario(config: Config)
  {
    var scaler := new KpaScaler();
    var outcome := scaler.ReceiveConfig(Ok(config));
    assert outcome == Installed;
    var client := new ScaleClient(0, false, false);
    var pa := PodAutoscaler(true, true, Status(Activating, p => false, p => false), 0, 0);
    var scale, err := scaler.Scale(pa, 0, client);
    assert scale == 1 && err == None && client.replicas == 1 && client.updates == 1;
    scale, err := scaler.Scale(pa, 0, client);
    assert scale == ScaleUnknown && err == None && client.replicas == 1 && client.updates == 1;
  }
}
