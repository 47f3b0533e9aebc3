/** The part of the Kubernetes API the observer touches: ConfigMap data and Deployment
    pod templates, read with Get and replaced whole with Update. The observer is the only
    writer. */
module Kube {

  datatype Ref = Ref(ns: string, name: string)

  type Fields = map<string, string>

  /** Indexing a Go map: a missing key reads as the empty string. */
  function Value(fields: Fields, key: string): string {
    if key in fields then fields[key] else ""
  }

  /** A Deployment: its pod-template annotations, how often that template has changed
      (each change restarts the pods), and the ConfigMaps its pods read when they last
      started. The last two are not API fields: they record what the cluster did. */
  datatype Deployment = Deployment(template: Fields, rolls: nat, podsRead: map<Ref, Fields>)

  datatype Server = Server(configMaps: map<Ref, Fields>, deployments: map<Ref, Deployment>)

  datatype Verb = GetConfigMap | UpdateConfigMap | GetDeployment | UpdateDeployment

  datatype Op = Op(verb: Verb, ref: Ref)

  /** How one API request ends: served, refused without effect, or carried out with the
      reply lost. The client sees an error in the last two cases. */
  datatype Outcome = Served | Refused | Lost

  /** The faults of one call, by operation; an operation that is not listed is served. */
  type Faults = map<Op, Outcome>

  function Fate(f: Faults, verb: Verb, ref: Ref): Outcome {
    if Op(verb, ref) in f then f[Op(verb, ref)] else Served
  }

  function PutConfigMap(s: Server, ref: Ref, data: Fields, o: Outcome): Server {
    if o == Refused then s else s.(configMaps := s.configMaps[ref := data])
  }

  /** Replacing a template by an equal one restarts nothing. */
  function PutTemplate(s: Server, ref: Ref, template: Fields, o: Outcome): Server
    requires ref in s.deployments
  {
    if o == Refused || s.deployments[ref].template == template then s
    else s.(deployments := s.deployments[ref := Deployment(template, s.deployments[ref].rolls + 1, s.configMaps)])
  }

  datatype Reply<T> = Got(value: T) | Error

  /** The API server, with the faults it will show during the current call. */
  class ApiServer {
    var state: Server
    var faults: Faults

    constructor (state: Server, faults: Faults)
      ensures this.state == state && this.faults == faults
    {
      this.state, this.faults := state, faults;
    }

    method GetConfigMap(ref: Ref) returns (r: Reply<Fields>)
      ensures r == if ref in state.configMaps && Fate(faults, Verb.GetConfigMap, ref) == Served
                   then Got(state.configMaps[ref]) else Error
    {
      if ref in state.configMaps && Fate(faults, Verb.GetConfigMap, ref) == Served {
        return Got(state.configMaps[ref]);
      }
      return Error;
    }

    method UpdateConfigMap(ref: Ref, data: Fields) returns (ok: bool)
      modifies this`state
      ensures state == PutConfigMap(old(state), ref, data, Fate(faults, Verb.UpdateConfigMap, ref))
      ensures ok <==> Fate(faults, Verb.UpdateConfigMap, ref) == Served
    {
      state := PutConfigMap(state, ref, data, Fate(faults, Verb.UpdateConfigMap, ref));
      ok := Fate(faults, Verb.UpdateConfigMap, ref) == Served;
    }

    method GetDeployment(ref: Ref) returns (r: Reply<Fields>)
      ensures r == if ref in state.deployments && Fate(faults, Verb.GetDeployment, ref) == Served
                   then Got(state.deployments[ref].template) else Error
    {
      if ref in state.deployments && Fate(faults, Verb.GetDeployment, ref) == Served {
        return Got(state.deployments[ref].template);
      }
      return Error;
    }

    method UpdateDeployment(ref: Ref, template: Fields) returns (ok: bool)
      requires ref in state.deployments
      modifies this`state
      ensures state == PutTemplate(old(state), ref, template, Fate(faults, Verb.UpdateDeployment, ref))
      ensures ok <==> Fate(faults, Verb.UpdateDeployment, ref) == Served
    {
      state := PutTemplate(state, ref, template, Fate(faults, Verb.UpdateDeployment, ref));
      ok := Fate(faults, Verb.UpdateDeployment, ref) == Served;
    }
  }
}
