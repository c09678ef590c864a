/**
 * The DCDN calls the DCDN drivers issue (alibaba-cloud-sdk-go's dcdn
 * service, reached through Client.dcdnconn), as a stub: every call is
 * appended to `log`. DescribeDcdnDomainDetail answers from a queue of
 * scripted replies whose last reply repeats, so that a sequence of status
 * reads can be scripted; every other call of one kind returns the reply
 * scripted for that kind.
 */
module DcdnClient {
  import opened Wrappers
  import opened Common
  import opened Schema

  /** One origin of a domain, as DescribeDcdnDomainDetail reports it. */
  datatype Source = Source(content: string, port: int, priority: string, sourceType: string, weight: string)

  /** The fields of DescribeDcdnDomainDetail's DomainDetail that the drivers use. */
  datatype DomainDetail = DomainDetail(
    domainStatus: string,
    resourceGroupId: string,
    scope: string,
    cname: string,
    sources: seq<Source>)

  datatype FunctionArg = FunctionArg(argName: string, argValue: string)

  /** One element of DescribeDcdnDomainConfigs' DomainConfigs.DomainConfig. */
  datatype DomainConfig = DomainConfig(configId: string, functionName: string, functionArgs: seq<FunctionArg>)

  /** One element of DescribeDcdnDomainCertificateInfo's CertInfos.CertInfo. */
  datatype CertInfo = CertInfo(certName: string, certType: string, sslPub: string)

  /**
   * A JSON object the drivers marshal into a request: its keys and, per
   * key, the value or nil (None) when the record's element lacks it.
   */
  type Payload = map<string, Option<Scalar>>

  /** item[key] on a record element read as a Go map: nil when the key is missing. */
  function Lookup(item: map<string, Scalar>, key: string): Option<Scalar>
  {
    if key in item then Some(item[key]) else None
  }

  /** AddDcdnDomainRequest; a string field the driver leaves alone is "". */
  datatype AddDomainRequest = AddDomainRequest(
    domainName: string,
    resourceGroupId: string,
    scope: string,
    sources: seq<Payload>)

  /** UpdateDcdnDomainRequest; Sources is None when the driver leaves it unset. */
  datatype UpdateDomainRequest = UpdateDomainRequest(
    domainName: string,
    resourceGroupId: string,
    sources: Option<seq<Payload>>)

  /** One element of BatchSetDcdnDomainConfigs' Functions. */
  datatype FunctionConfig = FunctionConfig(functionName: string, functionArgs: seq<Payload>)

  /** SetDcdnDomainCertificateRequest; a field the driver leaves alone is "". */
  datatype CertRequest = CertRequest(
    domainName: string,
    certName: string,
    certType: string,
    sslProtocol: string,
    forceSet: string,
    sslPub: string,
    sslPri: string)

  datatype Call =
    | AddDcdnDomain(add: AddDomainRequest)
    | DescribeDcdnDomainDetail(domainName: string)
    | ModifyDCdnDomainSchdmByProperty(domainName: string, property: string)
    | UpdateDcdnDomain(update: UpdateDomainRequest)
    | DeleteDcdnDomain(domainName: string)
    | BatchSetDcdnDomainConfigs(domainNames: string, functions: seq<FunctionConfig>)
    | DescribeDcdnDomainConfigs(domainName: string, functionNames: string)
    | DeleteDcdnSpecificConfig(configId: string, domainName: string)
    | SetDcdnDomainCertificate(cert: CertRequest)
    | DescribeDcdnDomainCertificateInfo(domainName: string)

  /** The queue after one status read: the head is used up unless it is the last reply. */
  function Advance<T>(queue: seq<T>): (rest: seq<T>)
    requires |queue| > 0
    ensures |rest| > 0
  {
    if |queue| > 1 then queue[1..] else queue
  }

  /** The queue after n status reads. */
  function AdvanceBy<T>(queue: seq<T>, n: nat): (rest: seq<T>)
    requires |queue| > 0
    ensures |rest| > 0
  {
    if n == 0 then queue else AdvanceBy(Advance(queue), n - 1)
  }

  /** One more status read after n of them. */
  lemma {:induction false} AdvanceByOneMore<T>(queue: seq<T>, n: nat)
    requires |queue| > 0
    ensures AdvanceBy(queue, n + 1) == Advance(AdvanceBy(queue, n))
  {
    if n > 0 {
      AdvanceByOneMore(Advance(queue), n - 1);
    }
  }

  /** The reply the n-th status read (counting from 0) gets: queue[n], or the last reply once the queue runs out. */
  lemma {:induction false} AdvanceByHead<T>(queue: seq<T>, n: nat)
    requires |queue| > 0
    ensures AdvanceBy(queue, n)[0] == queue[if n < |queue| then n else |queue| - 1]
  {
    if n > 0 {
      AdvanceByHead(Advance(queue), n - 1);
    }
  }

  class Conn {
    var log: seq<Call>
    /** The replies the next DescribeDcdnDomainDetail calls get, in order; the last one repeats. */
    var details: seq<Result<DomainDetail, Error>>
    const addDomain: Option<Error>
    const modifyScope: Option<Error>
    const updateDomain: Option<Error>
    const deleteDomain: Option<Error>
    const batchSetConfigs: Option<Error>
    const describeConfigs: Result<seq<DomainConfig>, Error>
    const deleteSpecificConfig: Option<Error>
    const setCertificate: Option<Error>
    const describeCertInfo: Result<seq<CertInfo>, Error>

    predicate Valid()
      reads this
    {
      |details| > 0
    }

    constructor (details: seq<Result<DomainDetail, Error>>,
                 addDomain: Option<Error>, modifyScope: Option<Error>,
                 updateDomain: Option<Error>, deleteDomain: Option<Error>,
                 batchSetConfigs: Option<Error>, describeConfigs: Result<seq<DomainConfig>, Error>,
                 deleteSpecificConfig: Option<Error>,
                 setCertificate: Option<Error>, describeCertInfo: Result<seq<CertInfo>, Error>)
      requires |details| > 0
      ensures Valid()
      ensures log == [] && this.details == details
      ensures this.addDomain == addDomain && this.modifyScope == modifyScope
      ensures this.updateDomain == updateDomain && this.deleteDomain == deleteDomain
      ensures this.batchSetConfigs == batchSetConfigs && this.describeConfigs == describeConfigs
      ensures this.deleteSpecificConfig == deleteSpecificConfig
      ensures this.setCertificate == setCertificate && this.describeCertInfo == describeCertInfo
    {
      log := [];
      this.details := details;
      this.addDomain := addDomain;
      this.modifyScope := modifyScope;
      this.updateDomain := updateDomain;
      this.deleteDomain := deleteDomain;
      this.batchSetConfigs := batchSetConfigs;
      this.describeConfigs := describeConfigs;
      this.deleteSpecificConfig := deleteSpecificConfig;
      this.setCertificate := setCertificate;
      this.describeCertInfo := describeCertInfo;
    }

    method AddDcdnDomain(request: AddDomainRequest) returns (err: Option<Error>)
      modifies this`log
      ensures log == old(log) + [Call.AddDcdnDomain(request)]
      ensures err == addDomain
    {
      log := log + [Call.AddDcdnDomain(request)];
      err := addDomain;
    }

    method DescribeDcdnDomainDetail(domainName: string) returns (r: Result<DomainDetail, Error>)
      requires Valid()
      modifies this`log, this`details
      ensures Valid()
      ensures log == old(log) + [Call.DescribeDcdnDomainDetail(domainName)]
      ensures r == old(details[0]) && details == Advance(old(details))
    {
      log := log + [Call.DescribeDcdnDomainDetail(domainName)];
      r := details[0];
      details := Advance(details);
    }

    method ModifyDCdnDomainSchdmByProperty(domainName: string, property: string) returns (err: Option<Error>)
      modifies this`log
      ensures log == old(log) + [Call.ModifyDCdnDomainSchdmByProperty(domainName, property)]
      ensures err == modifyScope
    {
      log := log + [Call.ModifyDCdnDomainSchdmByProperty(domainName, property)];
      err := modifyScope;
    }

    method UpdateDcdnDomain(request: UpdateDomainRequest) returns (err: Option<Error>)
      modifies this`log
      ensures log == old(log) + [Call.UpdateDcdnDomain(request)]
      ensures err == updateDomain
    {
      log := log + [Call.UpdateDcdnDomain(request)];
      err := updateDomain;
    }

    method DeleteDcdnDomain(domainName: string) returns (err: Option<Error>)
      modifies this`log
      ensures log == old(log) + [Call.DeleteDcdnDomain(domainName)]
      ensures err == deleteDomain
    {
      log := log + [Call.DeleteDcdnDomain(domainName)];
      err := deleteDomain;
    }

    method BatchSetDcdnDomainConfigs(domainNames: string, functions: seq<FunctionConfig>) returns (err: Option<Error>)
      modifies this`log
      ensures log == old(log) + [Call.BatchSetDcdnDomainConfigs(domainNames, functions)]
      ensures err == batchSetConfigs
    {
      log := log + [Call.BatchSetDcdnDomainConfigs(domainNames, functions)];
      err := batchSetConfigs;
    }

    method DescribeDcdnDomainConfigs(domainName: string, functionNames: string)
      returns (r: Result<seq<DomainConfig>, Error>)
      modifies this`log
      ensures log == old(log) + [Call.DescribeDcdnDomainConfigs(domainName, functionNames)]
      ensures r == describeConfigs
    {
      log := log + [Call.DescribeDcdnDomainConfigs(domainName, functionNames)];
      r := describeConfigs;
    }

    method DeleteDcdnSpecificConfig(configId: string, domainName: string) returns (err: Option<Error>)
      modifies this`log
      ensures log == old(log) + [Call.DeleteDcdnSpecificConfig(configId, domainName)]
      ensures err == deleteSpecificConfig
    {
      log := log + [Call.DeleteDcdnSpecificConfig(configId, domainName)];
      err := deleteSpecificConfig;
    }

    method SetDcdnDomainCertificate(request: CertRequest) returns (err: Option<Error>)
      modifies this`log
      ensures log == old(log) + [Call.SetDcdnDomainCertificate(request)]
      ensures err == setCertificate
    {
      log := log + [Call.SetDcdnDomainCertificate(request)];
      err := setCertificate;
    }

    method DescribeDcdnDomainCertificateInfo(domainName: string) returns (r: Result<seq<CertInfo>, Error>)
      modifies this`log
      ensures log == old(log) + [Call.DescribeDcdnDomainCertificateInfo(domainName)]
      ensures r == describeCertInfo
    {
      log := log + [Call.DescribeDcdnDomainCertificateInfo(domainName)];
      r := describeCertInfo;
    }
  }
}
