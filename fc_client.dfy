/**
 * The Function Compute calls the FC drivers issue (fc-go-sdk, reached
 * through Client.fcconn), as a stub: every call is appended to `log`, and
 * every call of one kind returns the reply scripted for that kind.
 */
module FcClient {
  import opened Wrappers
  import opened Common

  /** fc.TriggerCreateObject; a nil pointer or a nil config is None. */
  datatype TriggerCreateObject = TriggerCreateObject(
    triggerName: string,
    triggerType: string,
    invocationRole: string,
    triggerConfig: Option<string>,
    qualifier: string,
    sourceArn: Option<string>)

  /** fc.UpdateTriggerInput; a field left nil is None. */
  datatype UpdateTriggerInput = UpdateTriggerInput(
    serviceName: string,
    functionName: string,
    triggerName: string,
    invocationRole: Option<string>,
    triggerConfig: Option<string>,
    qualifier: Option<string>)

  /** The fields of a GetTrigger response that Read uses; the raw config is its JSON text. */
  datatype Trigger = Trigger(
    triggerName: string,
    triggerId: string,
    invocationRole: string,
    sourceArn: string,
    qualifier: string,
    rawTriggerConfig: string,
    triggerType: string,
    lastModifiedTime: string)

  /** fc.PublishServiceVersionInput */
  datatype PublishServiceVersionInput = PublishServiceVersionInput(serviceName: string, description: Option<string>)

  /** One element of a ListServiceVersions response. */
  datatype Version = Version(versionId: string, description: string)

  datatype Call =
    | CreateTrigger(serviceName: string, functionName: string, triggerObject: TriggerCreateObject)
    | GetTrigger(serviceName: string, functionName: string, triggerName: string)
    | UpdateTrigger(input: UpdateTriggerInput)
    | DeleteTrigger(serviceName: string, functionName: string, triggerName: string)
    | PublishServiceVersion(publish: PublishServiceVersionInput)
    | ListServiceVersions(serviceName: string, startKey: string, limit: int)
    | DeleteServiceVersion(serviceName: string, versionId: string)

  class Conn {
    var log: seq<Call>
    /** The TriggerName of CreateTrigger's response, or its error. */
    const createTrigger: Result<string, Error>
    const getTrigger: Result<Trigger, Error>
    const updateTrigger: Option<Error>
    const deleteTrigger: Option<Error>
    /** The VersionID of PublishServiceVersion's response, or its error. */
    const publishServiceVersion: Result<string, Error>
    const listServiceVersions: Result<seq<Version>, Error>
    const deleteServiceVersion: Option<Error>

    constructor (createTrigger: Result<string, Error>, getTrigger: Result<Trigger, Error>,
                 updateTrigger: Option<Error>, deleteTrigger: Option<Error>,
                 publishServiceVersion: Result<string, Error>,
                 listServiceVersions: Result<seq<Version>, Error>,
                 deleteServiceVersion: Option<Error>)
      ensures log == []
      ensures this.createTrigger == createTrigger && this.getTrigger == getTrigger
      ensures this.updateTrigger == updateTrigger && this.deleteTrigger == deleteTrigger
      ensures this.publishServiceVersion == publishServiceVersion
      ensures this.listServiceVersions == listServiceVersions
      ensures this.deleteServiceVersion == deleteServiceVersion
    {
      log := [];
      this.createTrigger := createTrigger;
      this.getTrigger := getTrigger;
      this.updateTrigger := updateTrigger;
      this.deleteTrigger := deleteTrigger;
      this.publishServiceVersion := publishServiceVersion;
      this.listServiceVersions := listServiceVersions;
      this.deleteServiceVersion := deleteServiceVersion;
    }

    method CreateTrigger(serviceName: string, functionName: string, triggerObject: TriggerCreateObject)
      returns (r: Result<string, Error>)
      modifies this`log
      ensures log == old(log) + [Call.CreateTrigger(serviceName, functionName, triggerObject)]
      ensures r == createTrigger
    {
      log := log + [Call.CreateTrigger(serviceName, functionName, triggerObject)];
      r := createTrigger;
    }

    method GetTrigger(serviceName: string, functionName: string, triggerName: string)
      returns (r: Result<Trigger, Error>)
      modifies this`log
      ensures log == old(log) + [Call.GetTrigger(serviceName, functionName, triggerName)]
      ensures r == getTrigger
    {
      log := log + [Call.GetTrigger(serviceName, functionName, triggerName)];
      r := getTrigger;
    }

    method UpdateTrigger(input: UpdateTriggerInput) returns (err: Option<Error>)
      modifies this`log
      ensures log == old(log) + [Call.UpdateTrigger(input)]
      ensures err == updateTrigger
    {
      log := log + [Call.UpdateTrigger(input)];
      err := updateTrigger;
    }

    method DeleteTrigger(serviceName: string, functionName: string, triggerName: string)
      returns (err: Option<Error>)
      modifies this`log
      ensures log == old(log) + [Call.DeleteTrigger(serviceName, functionName, triggerName)]
      ensures err == deleteTrigger
    {
      log := log + [Call.DeleteTrigger(serviceName, functionName, triggerName)];
      err := deleteTrigger;
    }

    method PublishServiceVersion(input: PublishServiceVersionInput) returns (r: Result<string, Error>)
      modifies this`log
      ensures log == old(log) + [Call.PublishServiceVersion(input)]
      ensures r == publishServiceVersion
    {
      log := log + [Call.PublishServiceVersion(input)];
      r := publishServiceVersion;
    }

    method ListServiceVersions(serviceName: string, startKey: string, limit: int)
      returns (r: Result<seq<Version>, Error>)
      modifies this`log
      ensures log == old(log) + [Call.ListServiceVersions(serviceName, startKey, limit)]
      ensures r == listServiceVersions
    {
      log := log + [Call.ListServiceVersions(serviceName, startKey, limit)];
      r := listServiceVersions;
    }

    method DeleteServiceVersion(serviceName: string, versionId: string) returns (err: Option<Error>)
      modifies this`log
      ensures log == old(log) + [Call.DeleteServiceVersion(serviceName, versionId)]
      ensures err == deleteServiceVersion
    {
      log := log + [Call.DeleteServiceVersion(serviceName, versionId)];
      err := deleteServiceVersion;
    }
  }
}
